/** The spoke's shared proxy state: its atomic updates, as in the HTTP proxy's transition
    system, and how a request and the end of a session string them together. */
module SharedProxyStates {
  import opened Options
  import opened Wire
  import opened HttpGate
  import opened HttpProxy
  import Ids

  /** The sending half of the oneshot channel of one request. */
  datatype Responder = Responder(request: Sid)

  /** How far a request got: no session to send it on, not sent, or sent on a session. */
  datatype Start = NotConnected | Withdrawn(sid: Sid) | Underway(sid: Sid, session: nat)

  /** The counter after `n` requests. */
  function Advanced(counter: Sid, n: nat): Sid {
    if n == 0 then counter else Ids.Succ(Advanced(counter, n - 1))
  }

  /** What is registered after a series of requests, the first with id `counter`. */
  function Begun(pending: set<Sid>, counter: Sid, sends: seq<bool>): set<Sid> {
    if sends == [] then pending
    else
      var n := |sends| - 1;
      var before := Begun(pending, counter, sends[..n]);
      if sends[n] then before + {Advanced(counter, n)} else before - {Advanced(counter, n)}
  }

  lemma {:induction false} AdvancedIs(counter: Sid, n: nat)
    requires counter + n < U64_RANGE
    ensures Advanced(counter, n) == counter + n
  {
    if n > 0 {
      AdvancedIs(counter, n - 1);
    }
  }

  /** `x` is the id of one of the requests that were sent. */
  predicate IsSent(counter: Sid, sends: seq<bool>, x: Sid) {
    counter <= x < counter + |sends| && sends[x - counter]
  }

  /** Up to the wrap-around of the counter: registered are the requests sent, beside the old ones. */
  lemma {:induction false} BegunMeans(pending: set<Sid>, counter: Sid, sends: seq<bool>)
    requires counter + |sends| <= U64_RANGE && forall x :: x in pending ==> x < counter
    ensures forall x: Sid :: x in Begun(pending, counter, sends) <==> x in pending || IsSent(counter, sends, x)
  {
    if sends != [] {
      var n := |sends| - 1;
      BegunMeans(pending, counter, sends[..n]);
      AdvancedIs(counter, n);
      assert forall x: Sid :: IsSent(counter, sends, x) <==>
        IsSent(counter, sends[..n], x) || (x == counter + n && sends[n]);
    }
  }

  class SharedProxyState {
    /** The current session, while one is attached. */
    var hubTx: Option<nat>
    var pending: map<Sid, Responder>
    var streamIdCounter: Sid

    ghost predicate Valid()
      reads this
    {
      forall x :: x in pending ==> pending[x].request == x
    }

    ghost function View(): Proxy
      reads this
    {
      Proxy(if hubTx.Some? then Hub(hubTx.value) else NoHub, pending.Keys, streamIdCounter)
    }

    constructor ()
      ensures Valid() && View() == Proxy(NoHub, {}, Ids.HALF)
    {
      hubTx, pending, streamIdCounter := None, map[], Ids.HALF;
    }

    method Attach(session: nat)
      requires Valid()
      modifies this`hubTx
      ensures Valid() && View() == AttachHub(old(View()), session) && hubTx == Some(session)
    {
      hubTx := Some(session);
    }

    method NextStreamId() returns (sid: Sid)
      requires Valid()
      modifies this`streamIdCounter
      ensures Valid() && View() == TakeId(old(View()))
      ensures sid == old(streamIdCounter) && streamIdCounter == if sid + 1 == U64_RANGE then 0 else sid + 1
    {
      sid := streamIdCounter;
      streamIdCounter := Ids.Succ(streamIdCounter);
    }

    method Insert(sid: Sid)
      requires Valid()
      modifies this`pending
      ensures Valid() && View() == AddPending(old(View()), sid) && pending.Keys == old(pending.Keys) + {sid}
    {
      pending := pending[sid := Responder(sid)];
    }

    /** Reply delivery and both self-removals: whoever takes the responder owns it. */
    method Take(sid: Sid) returns (tx: Option<Responder>)
      requires Valid()
      modifies this`pending
      ensures Valid() && View() == DropPending(old(View()), sid) && pending == old(pending) - {sid}
      ensures tx == if sid in old(pending) then Some(Responder(sid)) else None
    {
      tx := if sid in pending then Some(pending[sid]) else None;
      pending := pending - {sid};
    }

    /** First half of a session's end: no new request can be sent. */
    method Detach()
      requires Valid()
      modifies this`hubTx
      ensures Valid() && View() == DetachHub(old(View())) && hubTx == None
    {
      hubTx := None;
    }

    /** Second half: take every responder, each to be given the flush reply. */
    method Drain() returns (drained: map<Sid, Responder>)
      requires Valid()
      modifies this`pending
      ensures Valid() && View() == DrainPending(old(View())) && pending == map[]
      ensures drained.Keys == old(pending.Keys) && forall x :: x in drained ==> drained[x] == Responder(x)
    {
      drained := pending;
      pending := map[];
    }

    /** A request up to its send: refused between sessions, else numbered, registered, and taken
        back if the send fails. */
    method BeginRequest(sent: bool) returns (b: Start, early: Option<(int, string)>)
      requires Valid()
      modifies this`streamIdCounter, this`pending
      ensures Valid() && (b.NotConnected? <==> hubTx.None?)
      ensures b.NotConnected? ==> pending == old(pending) && streamIdCounter == old(streamIdCounter)
      ensures !b.NotConnected? ==> b.sid == old(streamIdCounter) && streamIdCounter == Ids.Succ(b.sid)
      ensures early == match b
                       case NotConnected => Some((503, "tunnel not connected"))
                       case Withdrawn(_) => Some((503, "tunnel send failed"))
                       case Underway(_, _) => None
      ensures b.Withdrawn? ==> !sent && pending.Keys == old(pending.Keys) - {b.sid}
      ensures b.Underway? ==> sent && Some(b.session) == hubTx && pending.Keys == old(pending.Keys) + {b.sid}
    {
      if hubTx.None? {
        return NotConnected, Some((SERVICE_UNAVAILABLE, "tunnel not connected"));
      }
      var sid := NextStreamId();
      Insert(sid);
      if !sent {
        var _ := Take(sid);
        return Withdrawn(sid), Some(CallerSees(SendFailure));
      }
      b, early := Underway(sid, hubTx.value), None;
    }

    /** A whole session in which no reply arrives: requests begin one after the other, none is
        refused, and the session's end gives the flush reply to exactly those still pending. */
    method ServeSession(session: nat, sends: seq<bool>) returns (begun: seq<Start>, replies: map<Sid, HttpResponse>)
      requires Valid()
      modifies this`hubTx, this`pending, this`streamIdCounter
      ensures Valid() && hubTx == None && pending == map[]
      ensures |begun| == |sends|
      ensures forall k :: 0 <= k < |sends| ==>
        var sid := Advanced(old(streamIdCounter), k);
        begun[k] == if sends[k] then Underway(sid, session) else Withdrawn(sid)
      ensures streamIdCounter == Advanced(old(streamIdCounter), |sends|)
      ensures replies.Keys == Begun(old(pending.Keys), old(streamIdCounter), sends)
      ensures forall x :: x in replies ==> replies[x] == FLUSH_REPLY
    {
      Attach(session);
      begun := [];
      var k := 0;
      while k < |sends|
        invariant Valid() && hubTx == Some(session) && k == |begun| <= |sends|
        invariant streamIdCounter == Advanced(old(streamIdCounter), k)
        invariant pending.Keys == Begun(old(pending.Keys), old(streamIdCounter), sends[..k])
        invariant forall i :: 0 <= i < k ==>
          var sid := Advanced(old(streamIdCounter), i);
          begun[i] == if sends[i] then Underway(sid, session) else Withdrawn(sid)
      {
        assert sends[..k + 1][..k] == sends[..k];
        var b, _ := BeginRequest(sends[k]);
        begun := begun + [b];
        k := k + 1;
      }
      assert sends[..k] == sends;
      replies := DetachAndFlush();
    }

    /** The end of a session: nobody can send any more, and every pending request gets the
        flush reply, once. */
    method DetachAndFlush() returns (replies: map<Sid, HttpResponse>)
      requires Valid()
      modifies this`hubTx, this`pending
      ensures Valid() && View() == DrainPending(DetachHub(old(View()))) && hubTx == None && pending == map[]
      ensures replies.Keys == old(pending.Keys)
      ensures forall x :: x in replies ==> replies[x] == FLUSH_REPLY
    {
      Detach();
      var drained := Drain();
      replies := map[];
      var left := drained.Keys;
      while left != {}
        invariant left <= drained.Keys && replies.Keys == drained.Keys - left
        invariant forall x :: x in replies ==> replies[x] == FLUSH_REPLY
        decreases |left|
      {
        var sid :| sid in left;
        replies := replies[drained[sid].request := FLUSH_REPLY];
        left := left - {sid};
      }
    }
  }
}
