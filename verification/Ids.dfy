/** Stream ids: the hub numbers accepted connections upwards from 1, the spoke numbers
    proxied requests upwards from 2^63, each from one counter that outlives sessions. */
module Ids {
  import opened Wire

  const HALF: int := 0x8000_0000_0000_0000

  datatype Issuer = Hub | Spoke

  datatype Counters = Counters(hub: Sid, spoke: Sid)

  const FRESH := Counters(0, HALF)

  /** Unsigned 64-bit increment. */
  function Succ(x: Sid): Sid {
    if x + 1 == U64_RANGE then 0 else x + 1
  }

  /** The hub adds one to what `fetch_add` returned; the spoke uses it as it is. */
  function Issue(c: Counters, who: Issuer): (Counters, Sid) {
    match who
    case Hub => (c.(hub := Succ(c.hub)), Succ(c.hub))
    case Spoke => (c.(spoke := Succ(c.spoke)), c.spoke)
  }

  /** The two atomic counters; adding wraps around. */
  class IdCounters {
    var nextSid: Sid
    var streamIdCounter: Sid

    ghost function State(): Counters
      reads this
    {
      Counters(nextSid, streamIdCounter)
    }

    constructor ()
      ensures State() == FRESH
    {
      nextSid, streamIdCounter := 0, HALF;
    }

    method NextHubSid() returns (sid: Sid)
      modifies this
      ensures (State(), sid) == Issue(old(State()), Hub)
    {
      var before := nextSid;
      nextSid := Succ(nextSid);
      sid := Succ(before);
    }

    method NextSpokeSid() returns (sid: Sid)
      modifies this
      ensures (State(), sid) == Issue(old(State()), Spoke)
    {
      sid := streamIdCounter;
      streamIdCounter := Succ(streamIdCounter);
    }

    /** The counters driven through any interleaving of accepts and proxied requests. */
    method IssueAll(order: seq<Issuer>) returns (ids: seq<Sid>)
      modifies this
      ensures ids == Issued(old(State()), order)
    {
      ids := [];
      ghost var start := State();
      var k := 0;
      while k < |order|
        invariant k <= |order| && ids + Issued(State(), order[k..]) == Issued(start, order)
      {
        assert order[k..][1..] == order[k + 1..];
        var sid;
        if order[k].Hub? {
          sid := NextHubSid();
        } else {
          sid := NextSpokeSid();
        }
        IssuedStep(ids, sid, Issued(State(), order[k + 1..]));
        ids := ids + [sid];
        k := k + 1;
      }
    }
  }

  lemma IssuedStep(ids: seq<Sid>, sid: Sid, rest: seq<Sid>)
    ensures ids + ([sid] + rest) == ids + [sid] + rest
  {
  }

  /** All ids issued by an interleaving of accepts and proxied requests, across any
      number of sessions, from counters in state `c`. */
  function Issued(c: Counters, order: seq<Issuer>): seq<Sid>
    decreases |order|
  {
    if order == [] then [] else [Issue(c, order[0]).1] + Issued(Issue(c, order[0]).0, order[1..])
  }

  function CountOf(order: seq<Issuer>, who: Issuer): nat {
    if order == [] then 0 else (if order[0] == who then 1 else 0) + CountOf(order[1..], who)
  }

  predicate Distinct(ids: seq<Sid>) {
    forall i, j :: 0 <= i < j < |ids| ==> ids[i] != ids[j]
  }

  /** Hub ids are the positive numbers below 2^63, spoke ids the rest. */
  predicate InRange(ids: seq<Sid>, order: seq<Issuer>)
    requires |ids| == |order|
  {
    forall i :: 0 <= i < |ids| ==> if order[i].Hub? then 1 <= ids[i] < HALF else HALF <= ids[i]
  }

  /** The `i`-th id, by how many of its kind came before it, up to the first wrap-around. */
  lemma {:induction false} IssuedAt(c: Counters, order: seq<Issuer>, i: nat)
    requires i < |order|
    requires c.hub + CountOf(order[..i], Hub) + 1 < U64_RANGE || order[i].Spoke?
    requires c.spoke + CountOf(order[..i], Spoke) <= U64_RANGE || order[i].Hub?
    ensures |Issued(c, order)| == |order|
    ensures order[i].Hub? ==> Issued(c, order)[i] == c.hub + CountOf(order[..i], Hub) + 1
    ensures order[i].Spoke? ==>
      Issued(c, order)[i] == if c.spoke + CountOf(order[..i], Spoke) == U64_RANGE then 0
                             else c.spoke + CountOf(order[..i], Spoke)
    decreases |order|
  {
    IssuedLength(c, order);
    if i > 0 {
      assert order[1..][..i - 1] == order[1..i];
      assert order[..i][1..] == order[1..i];
      IssuedAt(Issue(c, order[0]).0, order[1..], i - 1);
    }
  }

  lemma {:induction false} IssuedLength(c: Counters, order: seq<Issuer>)
    ensures |Issued(c, order)| == |order|
    decreases |order|
  {
    if order != [] {
      IssuedLength(Issue(c, order[0]).0, order[1..]);
    }
  }

  lemma {:induction false} CountUpTo(order: seq<Issuer>, i: nat, j: nat, who: Issuer)
    requires i <= j <= |order|
    ensures CountOf(order[..i], who) <= CountOf(order[..j], who) <= CountOf(order, who)
    ensures i < j && order[i] == who ==> CountOf(order[..i], who) < CountOf(order[..j], who)
  {
    if order == [] {
    } else if i == 0 {
      if j > 0 {
        CountUpTo(order[1..], 0, j - 1, who);
        assert order[..j][1..] == order[1..][..j - 1];
      }
    } else {
      CountUpTo(order[1..], i - 1, j - 1, who);
      assert order[..j][1..] == order[1..][..j - 1];
      assert order[..i][1..] == order[1..][..i - 1];
    }
  }

  lemma {:induction false} LastOf(order: seq<Issuer>, n: nat, who: Issuer) returns (i: nat)
    requires n < CountOf(order, who)
    ensures i < |order| && order[i] == who && CountOf(order[..i], who) == n
  {
    if order[0] == who && n == 0 {
      i := 0;
    } else {
      i := LastOf(order[1..], n - (if order[0] == who then 1 else 0), who);
      assert order[..i + 1][1..] == order[1..][..i];
      i := i + 1;
    }
  }

  /** Ids from the two counters never collide and stay in their halves exactly as long as
      fewer than 2^63 connections and at most 2^63 requests have been numbered. */
  lemma DistinctAndInRangeIff(order: seq<Issuer>)
    ensures |Issued(FRESH, order)| == |order| && FRESH == Counters(0, 9223372036854775808)
    ensures Distinct(Issued(FRESH, order)) && InRange(Issued(FRESH, order), order)
       <==> CountOf(order, Hub) <= HALF - 1 && CountOf(order, Spoke) <= HALF
  {
    IssuedLength(FRESH, order);
    var ids := Issued(FRESH, order);
    if CountOf(order, Hub) <= HALF - 1 && CountOf(order, Spoke) <= HALF {
      forall i | 0 <= i < |ids|
        ensures if order[i].Hub? then ids[i] == CountOf(order[..i], Hub) + 1 < HALF
                else ids[i] == HALF + CountOf(order[..i], Spoke)
      {
        CountUpTo(order, i, i + 1, order[i]);
        IssuedAt(FRESH, order, i);
      }
      forall i, j | 0 <= i < j < |ids| ensures ids[i] != ids[j] {
        CountUpTo(order, i, j, order[i]);
      }
    } else if CountOf(order, Hub) > HALF - 1 {
      var i := LastOf(order, HALF - 1, Hub);
      IssuedAt(FRESH, order, i);
    } else {
      var i := LastOf(order, HALF, Spoke);
      IssuedAt(FRESH, order, i);
    }
  }
}
