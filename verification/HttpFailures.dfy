/** How a proxied request ends when it is not answered: not sent, timed out, flushed with its
    session. Nothing is assumed of the surroundings; one run for each ending. */
module HttpFailures {
  import opened Wire
  import opened HttpGate
  import opened HttpProxy
  import opened HttpProofs
  import opened HttpProgress
  import Ids

  // ---- what the surroundings may do ----

  /** Any send may fail, any wait run out, any frame be lost with its session; and a handler whose
      reply channel were dropped would hear of it. */
  lemma RequestsMayFail(s: State, x: Sid)
    ensures x in s.handlers && s.handlers[x].pc.Pending? ==>
      Can(s, ByHandler(x, SendOk)) && Can(s, ByHandler(x, SendErr))
    ensures StillWaits(s, x) ==> Can(s, ByHandler(x, Expire))
    ensures StillWaits(s, x) && x !in s.proxy.pending && s.session.Serving? ==> Can(s, ByHandler(x, SenderLost))
    ensures x in s.requests ==> Can(s, LoseRequest(x)) && Do(s, LoseRequest(x)) == s.(requests := s.requests - {x})
    ensures x in s.replies ==> Can(s, LoseReply(x)) && Do(s, LoseReply(x)) == s.(replies := s.replies - {x})
  {
  }

  /** The safety net, should a reply channel ever be dropped. */
  lemma SafetyNet(s: State, x: Sid)
    requires Can(s, ByHandler(x, SenderLost))
    ensures var o := Do(s, ByHandler(x, SenderLost)).handlers[x].pc;
      o.Done? && CallerSees(o.o) == (502, "response channel closed")
  {
  }

  /** A reply can be taken only on the session its request was sent on. */
  lemma RepliesStayInSession(s: State, x: Sid)
    requires x in s.replies && x in s.hub
    ensures Can(s, BySession(TakeReply(x))) <==> s.session.Serving? && s.hub[x].epoch == s.epoch
  {
  }

  /** The kernel may come to any outcome, and the hub's channel refuse any answer. */
  lemma HubMayFail(s: State, x: Sid, k: KernelOutcome)
    ensures x in s.hub && s.hub[x].pc.Received? && (k.Answered? ==> 100 <= k.status <= 999) ==>
      Can(s, ByHub(x, HubDecide(k)))
    ensures x in s.hub && s.hub[x].pc == Decided(k) && (k.Answered? ==> 100 <= k.status <= 999) ==>
      Can(s, ByHub(x, HubSend(true))) && Can(s, ByHub(x, HubSend(false)))
  {
  }

  /** A session may fail to come about and may end, and requests may come while it stands. */
  lemma SessionMayEnd(s: State, e: nat, path: string)
    ensures s.session.Connecting? ==> Can(s, BySession(Attach)) && Can(s, BySession(ConnectFails))
    ensures s.session.Serving? ==> Can(s, BySession(End))
    ensures s.proxy.hubTx != NoHub ==> Can(s, CloneTx)
    ensures s.cloned[e] > 0 ==> Can(s, Number(e, path))
  {
  }

  // ---- not sent ----

  /** The caller of a request that could not be sent. */
  lemma UnsentRun(g: Gate, path: string) returns (states: seq<State>, steps: seq<Step>)
    ensures Run(states, steps)
    ensures var s := states[|steps|];
      && s.handlers == map[Ids.HALF := Handler(0, path, Done(SendFailure), Empty)]
      && CallerSees(s.handlers[Ids.HALF].pc.o) == (503, "tunnel send failed")
      && s.proxy.pending == {} && s.requests == map[] && s.seen == multiset{} && s.session.Serving?
  {
    states, steps := RequestNumbered(g, path);
    var h := Handler(0, path, Pending, Empty);
    states, steps := Extend(states, steps, ByHandler(Ids.HALF, Insert), Sole(g, h, {Ids.HALF}, Serving));
    states, steps := Extend(states, steps, ByHandler(Ids.HALF, SendErr),
                            Sole(g, h.(pc := SendFailed), {Ids.HALF}, Serving));
    states, steps := Extend(states, steps, ByHandler(Ids.HALF, RemoveUnsent),
                            Sole(g, h.(pc := Done(SendFailure)), {}, Serving));
  }

  /** Session 0 with one request that the hub has not seen. */
  function Sole(g: Gate, h: Handler, pending: set<Sid>, session: SessionPc): State {
    One(g, h, pending, session, map[], map[], map[], NONE_YET, multiset{}, multiset{})
  }

  // ---- lost, and waited for ----

  lemma RequestLost(g: Gate, path: string) returns (states: seq<State>, steps: seq<Step>)
    ensures Run(states, steps)
    ensures states[|steps|] == Sole(g, Handler(0, path, Waiting, Empty), {Ids.HALF}, Serving)
  {
    states, steps := RequestSent(g, path);
    states, steps := Extend(states, steps, LoseRequest(Ids.HALF),
                            Sole(g, Handler(0, path, Waiting, Empty), {Ids.HALF}, Serving));
  }

  /** The caller of a request whose frame was lost. */
  lemma TimedOutRun(g: Gate, path: string) returns (states: seq<State>, steps: seq<Step>)
    ensures Run(states, steps)
    ensures var s := states[|steps|];
      && s.handlers == map[Ids.HALF := Handler(0, path, Done(TimedOut), Empty)]
      && CallerSees(s.handlers[Ids.HALF].pc.o) == (504, "hub response timeout")
      && s.proxy.pending == {} && s.session.Serving?
  {
    states, steps := RequestLost(g, path);
    var h := Handler(0, path, Waiting, Empty);
    states, steps := Extend(states, steps, ByHandler(Ids.HALF, Expire),
                            Sole(g, h.(pc := Expired), {Ids.HALF}, Serving));
    states, steps := Extend(states, steps, ByHandler(Ids.HALF, RemoveExpired),
                            Sole(g, h.(pc := Done(TimedOut)), {}, Serving));
  }

  // ---- flushed ----

  lemma SessionDetached(g: Gate, path: string) returns (states: seq<State>, steps: seq<Step>)
    ensures Run(states, steps)
    ensures states[|steps|] == Sole(g, Handler(0, path, Waiting, Empty), {Ids.HALF}, Detached)
                                 .(proxy := Proxy(NoHub, {Ids.HALF}, Ids.HALF + 1))
  {
    states, steps := RequestLost(g, path);
    var h := Handler(0, path, Waiting, Empty);
    states, steps := Extend(states, steps, BySession(End), Sole(g, h, {Ids.HALF}, Ending));
    states, steps := Extend(states, steps, BySession(Detach),
                            Sole(g, h, {Ids.HALF}, Detached).(proxy := Proxy(NoHub, {Ids.HALF}, Ids.HALF + 1)));
  }

  lemma PendingFlushed(g: Gate, path: string) returns (states: seq<State>, steps: seq<Step>)
    ensures Run(states, steps)
    ensures states[|steps|] == Sole(g, Handler(0, path, Waiting, Filled(FLUSH_REPLY)), {}, Flushing({}))
                                 .(proxy := Proxy(NoHub, {}, Ids.HALF + 1))
  {
    states, steps := SessionDetached(g, path);
    var h, p := Handler(0, path, Waiting, Empty), Proxy(NoHub, {}, Ids.HALF + 1);
    states, steps := Extend(states, steps, BySession(Drain), Sole(g, h, {}, Flushing({Ids.HALF})).(proxy := p));
    var drained: set<Sid> := {Ids.HALF};
    assert drained - {Ids.HALF} == {};
    states, steps := Extend(states, steps, BySession(FlushOne(Ids.HALF)),
                            Sole(g, h.(slot := Filled(FLUSH_REPLY)), {}, Flushing({})).(proxy := p));
  }

  /** The caller of a request that was pending when its session ended; after that the next session
      is attached, and a next request can be numbered on it. */
  lemma FlushedRun(g: Gate, path: string, next: string) returns (states: seq<State>, steps: seq<Step>)
    ensures Run(states, steps)
    ensures var s := states[|steps|];
      && s.handlers.Keys == {Ids.HALF, Ids.HALF + 1} && s.handlers[Ids.HALF].pc.Done?
      && CallerSees(s.handlers[Ids.HALF].pc.o) == (503, "tunnel session ended")
      && s.handlers[Ids.HALF + 1] == Handler(1, next, Numbered, Empty)
      && s.proxy == Proxy(Hub(1), {}, Ids.HALF + 2) && s.session.Serving? && s.epoch == 1
  {
    states, steps := PendingFlushed(g, path);
    var h, p := Handler(0, path, Done(Replied(FLUSH_REPLY)), Filled(FLUSH_REPLY)), Proxy(NoHub, {}, Ids.HALF + 1);
    var s := Sole(g, h, {}, Flushing({})).(proxy := p);
    states, steps := Extend(states, steps, ByHandler(Ids.HALF, Receive), s);
    s := s.(session := Connecting, epoch := 1);
    states, steps := Extend(states, steps, BySession(Reconnect), s);
    states, steps := NextSession(states, steps, s, next);
  }

  lemma NextSession(before: seq<State>, past: seq<Step>, s: State, path: string)
    returns (states: seq<State>, steps: seq<Step>)
    requires Run(before, past) && before[|past|] == s && s.session.Connecting? && s.cloned == multiset{}
    ensures Run(states, steps)
    ensures states[|steps|] == s.(session := Serving, numbered := s.numbered + 1,
                                  proxy := Proxy(Hub(s.epoch), s.proxy.pending, Ids.Succ(s.proxy.counter)),
                                  handlers := s.handlers[s.proxy.counter := Handler(s.epoch, path, Numbered, Empty)])
  {
    var n := s.(session := Serving, proxy := s.proxy.(hubTx := Hub(s.epoch)));
    states, steps := Extend(before, past, BySession(Attach), n);
    states, steps := Extend(states, steps, CloneTx, n.(cloned := multiset{s.epoch}));
    states, steps := Extend(states, steps, Number(s.epoch, path), Do(states[|steps|], Number(s.epoch, path)));
  }

  /** A session that does not come about ends without a sender and is tried again. */
  lemma ConnectFailsRun(g: Gate) returns (states: seq<State>, steps: seq<Step>)
    ensures Run(states, steps)
    ensures var s := states[|steps|]; s.session.Connecting? && s.epoch == 1 && s.proxy == Proxy(NoHub, {}, Ids.HALF)
  {
    var s := State(g, Proxy(NoHub, {}, Ids.HALF), multiset{}, map[], Connecting, 0, map[], map[], map[], NONE_YET,
                   0, multiset{}, multiset{});
    states, steps := [s], [];
    states, steps := Extend(states, steps, BySession(ConnectFails), s.(session := Ending));
    states, steps := Extend(states, steps, BySession(Detach), s.(session := Detached));
    states, steps := Extend(states, steps, BySession(Drain), s.(session := Flushing({})));
    states, steps := Extend(states, steps, BySession(Reconnect), s.(session := Connecting, epoch := 1));
  }
}
