/** Frames and byte strings shared by the hub and the spoke ends of the tunnel. */
module Wire {

  type Byte = b: int | 0 <= b < 256

  type Bytes = seq<Byte>

  const U64_RANGE: int := 0x1_0000_0000_0000_0000

  /** A `stream_id`: an unsigned 64-bit integer. */
  type Sid = x: int | 0 <= x < U64_RANGE

  /** The frame kinds that concern virtual TCP streams; every other kind
      (challenge, handshake, ping, pong, HTTP request and response) is `Other`. */
  datatype Kind = Open(target: string) | Data(payload: Bytes) | Close(half: bool) | Other

  datatype Frame = Frame(sid: Sid, kind: Kind)

  /** Per-stream channels hold 64 payloads; one read returns at most 32 KiB. */
  const STREAM_CHANNEL := 64
  const READ_BUFFER := 32 * 1024

  function Flatten(chunks: seq<Bytes>): Bytes {
    if chunks == [] then [] else chunks[0] + Flatten(chunks[1..])
  }

  function DataOf(k: Kind): Bytes {
    if k.Data? then k.payload else []
  }

  /** The stream content carried by a run of frames. */
  function Payload(ks: seq<Kind>): Bytes {
    if ks == [] then [] else DataOf(ks[0]) + Payload(ks[1..])
  }

  /** The frames of one stream, in queue order. */
  function Only(q: seq<Frame>, sid: Sid): seq<Kind> {
    if q == [] then []
    else (if q[0].sid == sid && !q[0].kind.Other? then [q[0].kind] else []) + Only(q[1..], sid)
  }

  lemma Reassociate<T>(a: seq<T>, b: seq<T>, c: seq<T>)
    ensures a + (b + c) == (a + b) + c
  {
  }

  lemma {:induction false} FlattenAppend(chunks: seq<Bytes>, c: Bytes)
    ensures Flatten(chunks + [c]) == Flatten(chunks) + c
  {
    if chunks == [] {
      assert chunks + [c] == [c] && [c][1..] == [];
      assert c + Flatten([]) == c;
    } else {
      FlattenAppend(chunks[1..], c);
      assert (chunks + [c])[1..] == chunks[1..] + [c];
      Reassociate(chunks[0], Flatten(chunks[1..]), c);
    }
  }

  lemma {:induction false} PayloadAppend(ks: seq<Kind>, k: Kind)
    ensures Payload(ks + [k]) == Payload(ks) + DataOf(k)
  {
    if ks == [] {
      assert ks + [k] == [k] && [k][1..] == [];
      assert DataOf(k) + Payload([]) == DataOf(k);
    } else {
      PayloadAppend(ks[1..], k);
      assert (ks + [k])[1..] == ks[1..] + [k];
      Reassociate(DataOf(ks[0]), Payload(ks[1..]), DataOf(k));
    }
  }

  lemma {:induction false} OnlyAppend(q: seq<Frame>, f: Frame, sid: Sid)
    ensures Only(q + [f], sid) == Only(q, sid) + Only([f], sid)
  {
    if q == [] {
      assert q + [f] == [f];
    } else {
      OnlyAppend(q[1..], f, sid);
      assert (q + [f])[1..] == q[1..] + [f];
      Reassociate(if q[0].sid == sid && !q[0].kind.Other? then [q[0].kind] else [], Only(q[1..], sid), Only([f], sid));
    }
  }
}
