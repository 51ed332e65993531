/** The hub's session object: the sections its tasks run under the `streams` lock, each one
    atomic step of the session's transition system, and two tasks' worth of them in order. */
module SpokeSessions {
  import opened Options
  import opened Wire
  import opened Stream
  import opened Tunnel

  /** The sending half of a per-stream writer channel. */
  datatype Sender = Sender(channel: Sid)

  class SpokeSession {
    var closed: bool
    var streams: map<Sid, Sender>
    /** The `streams_open` gauge of this spoke. */
    var streamsOpen: int
    ghost var removed: map<Sid, Remover>

    ghost predicate Valid()
      reads this
    {
      forall x :: x in streams ==> streams[x].channel == x
    }

    ghost function Shared(): HubShared
      reads this
    {
      HubShared(closed, streams.Keys, streamsOpen, removed)
    }

    constructor ()
      ensures Valid() && Shared() == HubShared(false, {}, 0, map[])
    {
      closed, streams, streamsOpen := false, map[], 0;
      removed := map[];
    }

    /** Accept: register the writer channel. The gauge follows after the lock is released. */
    method Register(sid: Sid)
      requires Valid()
      modifies this
      ensures Valid() && Shared() == InsertStream(old(Shared()), sid)
    {
      streams := streams[sid := Sender(sid)];
    }

    method CountOpened()
      requires Valid()
      modifies this`streamsOpen
      ensures Valid() && Shared() == CountStream(old(Shared()))
    {
      streamsOpen := streamsOpen + 1;
    }

    /** Upstream end, spoke Close, and eviction after a failed delivery. */
    method RemoveIfPresent(sid: Sid, ghost cause: Remover)
      requires Valid()
      modifies this
      ensures Valid() && Shared() == RemoveStream(old(Shared()), sid, cause)
    {
      if sid in streams {
        streams := streams - {sid};
        streamsOpen := streamsOpen - 1;
        removed := removed[sid := cause];
      }
    }

    /** Accept: undo the registration after the Open frame could not be sent. */
    method RollBack(sid: Sid)
      requires Valid()
      modifies this
      ensures Valid() && Shared() == RollBackStream(old(Shared()), sid)
    {
      if sid in streams {
        removed := removed[sid := ByRollBack];
      }
      streams := streams - {sid};
      streamsOpen := streamsOpen - 1;
    }

    /** What the accept loop does for one connection; a failed Open leaves no trace. */
    method Accept(sid: Sid, openSent: bool)
      requires Valid()
      modifies this
      ensures Valid() && closed == old(closed)
      ensures openSent ==> streams.Keys == old(streams.Keys) + {sid} && streamsOpen == old(streamsOpen) + 1
      ensures !openSent ==> streams.Keys == old(streams.Keys) - {sid} && streamsOpen == old(streamsOpen)
      ensures !openSent && sid !in old(streams) ==> streams == old(streams)
    {
      Register(sid);
      CountOpened();
      if !openSent {
        RollBack(sid);
      }
    }

    /** However many of the guarded paths try to remove a stream, and in whatever order, it
        goes once and the gauge drops once. */
    method EndStream(sid: Sid, ghost causes: seq<Remover>, tries: nat)
      requires Valid() && |causes| == tries
      modifies this
      ensures Valid() && closed == old(closed)
      ensures tries > 0 ==> streams.Keys == old(streams.Keys) - {sid}
      ensures streamsOpen == old(streamsOpen) - if tries > 0 && sid in old(streams) then 1 else 0
      ensures tries > 0 && sid in old(streams) ==> removed == old(removed)[sid := causes[0]]
    {
      var k := 0;
      while k < tries
        invariant Valid() && closed == old(closed) && k <= tries
        invariant k == 0 ==> Shared() == old(Shared())
        invariant k > 0 ==> Shared() == RemoveStream(old(Shared()), sid, causes[0])
      {
        RemoveIfPresent(sid, causes[k]);
        k := k + 1;
      }
    }

    /** Receive loop: the writer for a Data frame, if the stream is known. */
    method LookUp(sid: Sid) returns (w: Option<Sender>)
      requires Valid()
      ensures w == if sid in Shared().streams then Some(Sender(sid)) else None
    {
      w := if sid in streams then Some(streams[sid]) else None;
    }

    /** Session end: flip the flag, then drop every writer channel. */
    method Close()
      requires Valid()
      modifies this
      ensures Valid() && Shared() == ClearAll(old(Shared()).(closed := true))
    {
      closed := true;
      removed := removed + map x | x in streams :: BySessionClose;
      streams := map[];
    }
  }
}
