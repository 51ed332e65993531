/** What becomes of proxied requests when nothing is lost: who may send when, that no task gets
    stuck, and that every request on a standing session is answered. */
module HttpProgress {
  import opened Wire
  import opened HttpGate
  import opened HttpProxy
  import opened HttpProofs
  import opened HttpTheorems
  import opened SpokesTable
  import Ids

  // ---- the sender, in every run ----

  /** Handlers can get at the session's sender exactly from its start to the end's first half. */
  predicate TxLaw(s: State) {
    match s.session
    case Serving | Holding(_, _) => s.proxy.hubTx == Hub(s.epoch)
    case Ending => s.proxy.hubTx.NoHub? || s.proxy.hubTx == Hub(s.epoch)
    case Connecting | Detached | Flushing(_) => s.proxy.hubTx.NoHub?
  }

  lemma HandlerKeepsTx(s: State, sid: Sid, a: HandlerAct)
    requires TxLaw(s) && CanHandler(s, sid, a)
    ensures TxLaw(DoHandler(s, sid, a))
  {
  }

  lemma SessionKeepsTx(s: State, a: SessionAct)
    requires TxLaw(s) && CanSession(s, a)
    ensures TxLaw(DoSession(s, a))
  {
  }

  lemma HubKeepsTx(s: State, sid: Sid, a: HubAct)
    requires TxLaw(s) && CanHub(s, sid, a)
    ensures TxLaw(DoHub(s, sid, a))
  {
  }

  /** In every state of every run: while a session serves, its sender is there for every new
      request, and between sessions none is. */
  lemma {:induction false} SenderFollowsSession(states: seq<State>, steps: seq<Step>, i: nat)
    requires Run(states, steps) && i < |states|
    ensures TxLaw(states[i])
  {
    if i > 0 {
      RunLink(states, steps, i - 1);
      SenderFollowsSession(states, steps, i - 1);
      match steps[i - 1] {
        case ByHandler(sid, b) => HandlerKeepsTx(states[i - 1], sid, b);
        case BySession(b) => SessionKeepsTx(states[i - 1], b);
        case ByHub(sid, b) => HubKeepsTx(states[i - 1], sid, b);
        case _ =>
      }
    }
  }

  // ---- frames are only lost by being lost ----

  /** A request whose send went through is on its way or at the hub. */
  predicate Accounted(s: State, x: Sid) {
    x in s.handlers && !NotSent(s.handlers[x].pc) ==> x in s.requests || x in s.hub
  }

  predicate StillWaits(s: State, x: Sid) {
    x in s.handlers && s.handlers[x].pc.Waiting? && s.handlers[x].slot.Empty?
  }

  /** The answer to a request that still waits is on its way or about to be handed over. */
  predicate AnswerComes(s: State, x: Sid) {
    && (StillWaits(s, x) && x in s.hub && s.hub[x].pc.Sent? ==>
          x in s.replies || (s.session.Holding? && s.session.sid == x))
    && (x in s.hub && s.hub[x].pc.Decided? ==> PossibleOutcome(s.hub[x].pc.k))
  }

  predicate Kept(s: State, x: Sid) {
    Accounted(s, x) && AnswerComes(s, x)
  }

  lemma NumberKeepsKept(s: State, e: nat, path: string, x: Sid)
    requires Kept(s, x) && Frames(s.handlers, s.requests, s.hub)
    ensures Kept(DoNumber(s, e, path), x)
  {
  }

  lemma HandlerKeepsKept(s: State, sid: Sid, a: HandlerAct, x: Sid)
    requires Kept(s, x) && Frames(s.handlers, s.requests, s.hub) && CanHandler(s, sid, a)
    ensures Kept(DoHandler(s, sid, a), x)
  {
  }

  lemma SessionKeepsKept(s: State, a: SessionAct, x: Sid)
    requires Kept(s, x) && CanSession(s, a) && NoneLost(s.proxy, s.handlers, s.session)
    ensures Kept(DoSession(s, a), x)
  {
  }

  lemma HubKeepsKept(s: State, sid: Sid, a: HubAct, x: Sid)
    requires Kept(s, x) && Frames(s.handlers, s.requests, s.hub) && CanHub(s, sid, a)
    ensures Kept(DoHub(s, sid, a), x)
  {
  }

  lemma StepKeepsKept(s: State, a: Step, x: Sid)
    requires Kept(s, x) && Inv(s) && Can(s, a) && a != LoseRequest(x) && a != LoseReply(x)
    ensures Kept(Do(s, a), x)
  {
    match a
    case Number(e, path) => NumberKeepsKept(s, e, path, x);
    case ByHandler(sid, b) => HandlerKeepsKept(s, sid, b, x);
    case BySession(b) => SessionKeepsKept(s, b, x);
    case ByHub(sid, b) => HubKeepsKept(s, sid, b, x);
    case _ =>
  }

  /** A frame of the request was lost with its session before step `i`. */
  ghost predicate FrameLost(steps: seq<Step>, i: nat, x: Sid) {
    exists k {:trigger steps[k]} ::
      0 <= k < i && k < |steps| && (steps[k] == LoseRequest(x) || steps[k] == LoseReply(x))
  }

  lemma {:induction false} KeptUnlessLost(states: seq<State>, steps: seq<Step>, i: nat, x: Sid)
    requires Run(states, steps) && i < |states| && states[i].numbered <= Ids.HALF
    ensures Kept(states[i], x) || FrameLost(steps, i, x)
  {
    if i > 0 {
      var s, a := states[i - 1], steps[i - 1];
      RunLink(states, steps, i - 1);
      NumberedGrows(s, a);
      RunInv(states, steps, i - 1);
      KeptUnlessLost(states, steps, i - 1, x);
      if Kept(s, x) && a != LoseRequest(x) && a != LoseReply(x) {
        StepKeepsKept(s, a, x);
      }
    }
  }

  // ---- at rest ----

  /** What the tasks do by themselves: everything but new requests, failures, timeouts, losses
      and the end of the session. */
  predicate Internal(a: Step) {
    match a
    case ByHandler(_, b) => b.Insert? || b.SendOk? || b.RemoveUnsent? || b.Receive? || b.RemoveExpired?
    case BySession(b) => !b.End? && !b.ConnectFails?
    case ByHub(_, b) => b.HubSend? ==> b.ok
    case _ => false
  }

  ghost predicate AtRest(s: State) {
    forall a: Step :: Internal(a) ==> !Can(s, a)
  }

  /** The session task never gets stuck between sessions. */
  lemma SessionAtRest(s: State)
    requires AtRest(s)
    ensures s.session.Serving?
  {
    assert !Can(s, BySession(Attach)) && !Can(s, BySession(FillReply)) && !Can(s, BySession(Detach));
    assert !Can(s, BySession(Drain)) && !Can(s, BySession(Reconnect));
    if s.session.Flushing? && s.session.drained != {} {
      var x :| x in s.session.drained;
      assert Can(s, BySession(FlushOne(x)));
    }
  }

  /** Nor does a handler, except in waiting for its reply. */
  lemma HandlerAtRest(s: State, x: Sid)
    requires AtRest(s) && x in s.handlers
    ensures s.handlers[x].pc.Done? || StillWaits(s, x)
  {
    assert !Can(s, ByHandler(x, Insert)) && !Can(s, ByHandler(x, SendOk)) && !Can(s, ByHandler(x, RemoveUnsent));
    assert !Can(s, ByHandler(x, Receive)) && !Can(s, ByHandler(x, RemoveExpired));
  }

  /** Nor does the hub with a request. */
  lemma HubAtRest(s: State, x: Sid)
    requires AtRest(s) && x in s.handlers && Kept(s, x)
    ensures x !in s.requests
    ensures x in s.hub ==> s.hub[x].pc.Sent? || s.hub[x].pc.Unsent?
  {
    assert !Can(s, ByHub(x, HubReceive)) && !Can(s, ByHub(x, HubDecide(Unreachable(""))));
    assert !Can(s, ByHub(x, HubSend(true)));
  }

  /** In every run: when no task can do anything more by itself, the session serves and its
      sender is there; every request has been answered, unless a frame of it was lost, the hub
      could not send the answer, or its session is over and it can only time out, which it can. */
  lemma RestIsAnswered(states: seq<State>, steps: seq<Step>, i: nat, x: Sid)
    requires Run(states, steps) && i < |states| && states[i].numbered <= Ids.HALF
    requires AtRest(states[i])
    ensures states[i].session.Serving? && states[i].proxy.hubTx == Hub(states[i].epoch)
    ensures var s := states[i];
      x in s.handlers && !s.handlers[x].pc.Done? ==>
        && Can(s, ByHandler(x, Expire))
        && (FrameLost(steps, i, x) || s.handlers[x].epoch != s.epoch || (x in s.hub && s.hub[x].pc.Unsent?))
  {
    var s := states[i];
    SenderFollowsSession(states, steps, i);
    SessionAtRest(s);
    if x in s.handlers && !s.handlers[x].pc.Done? {
      HandlerAtRest(s, x);
      RunInv(states, steps, i);
      KeptUnlessLost(states, steps, i, x);
      if Kept(s, x) {
        HubAtRest(s, x);
        assert !Can(s, BySession(TakeReply(x)));
      }
    }
  }

  // ---- an answered request ----

  /** Session 0, serving, with one request. */
  function One(g: Gate, h: Handler, pending: set<Sid>, session: SessionPc, requests: map<Sid, nat>,
               replies: map<Sid, HttpResponse>, hub: map<Sid, HubReq>, counted: map<Label, nat>,
               seen: multiset<Sid>, emitted: multiset<Sid>): State
  {
    State(g, Proxy(Hub(0), pending, Ids.HALF + 1), multiset{}, map[Ids.HALF := h], session, 0,
          requests, replies, hub, counted, 1, seen, emitted)
  }

  const NONE_YET: map<Label, nat> := map[RejectedKind := 0, RejectedPath := 0, UpstreamErr := 0, Forwarded := 0]

  lemma Extend(before: seq<State>, past: seq<Step>, a: Step, s: State) returns (states: seq<State>, steps: seq<Step>)
    requires Run(before, past) && Can(before[|past|], a) && s == Do(before[|past|], a)
    ensures Run(states, steps) && states[|steps|] == s
  {
    states, steps := before + [s], past + [a];
  }

  lemma RequestNumbered(g: Gate, path: string) returns (states: seq<State>, steps: seq<Step>)
    ensures Run(states, steps)
    ensures states[|steps|] == One(g, Handler(0, path, Numbered, Empty), {}, Serving, map[], map[], map[], NONE_YET,
                                   multiset{}, multiset{})
  {
    var s := State(g, Proxy(NoHub, {}, Ids.HALF), multiset{}, map[], Connecting, 0, map[], map[], map[], NONE_YET,
                   0, multiset{}, multiset{});
    states, steps := [s], [];
    s := s.(session := Serving, proxy := Proxy(Hub(0), {}, Ids.HALF));
    states, steps := Extend(states, steps, BySession(Attach), s);
    states, steps := Extend(states, steps, CloneTx, s.(cloned := multiset{0}));
    states, steps := Extend(states, steps, Number(0, path),
                            One(g, Handler(0, path, Numbered, Empty), {}, Serving, map[], map[], map[], NONE_YET,
                                multiset{}, multiset{}));
  }

  lemma RequestSent(g: Gate, path: string) returns (states: seq<State>, steps: seq<Step>)
    ensures Run(states, steps)
    ensures states[|steps|] == One(g, Handler(0, path, Waiting, Empty), {Ids.HALF}, Serving, map[Ids.HALF := 0], map[],
                                   map[], NONE_YET, multiset{}, multiset{})
  {
    states, steps := RequestNumbered(g, path);
    states, steps := Extend(states, steps, ByHandler(Ids.HALF, Insert),
                            One(g, Handler(0, path, Pending, Empty), {Ids.HALF}, Serving, map[], map[], map[], NONE_YET,
                                multiset{}, multiset{}));
    states, steps := Extend(states, steps, ByHandler(Ids.HALF, SendOk),
                            One(g, Handler(0, path, Waiting, Empty), {Ids.HALF}, Serving, map[Ids.HALF := 0], map[],
                                map[], NONE_YET, multiset{}, multiset{}));
  }

  lemma RequestDecided(g: Gate, path: string, k: KernelOutcome) returns (states: seq<State>, steps: seq<Step>)
    requires PossibleOutcome(k)
    ensures Run(states, steps)
    ensures states[|steps|] == One(g, Handler(0, path, Waiting, Empty), {Ids.HALF}, Serving, map[], map[],
                                   map[Ids.HALF := HubReq(0, path, Decided(k))],
                                   NONE_YET[HubLabel(g, path, k) := 1], multiset{Ids.HALF}, multiset{})
  {
    states, steps := RequestSent(g, path);
    var h := Handler(0, path, Waiting, Empty);
    states, steps := Extend(states, steps, ByHub(Ids.HALF, HubReceive),
                            One(g, h, {Ids.HALF}, Serving, map[], map[], map[Ids.HALF := HubReq(0, path, Received)],
                                NONE_YET, multiset{Ids.HALF}, multiset{}));
    states, steps := Extend(states, steps, ByHub(Ids.HALF, HubDecide(k)),
                            One(g, h, {Ids.HALF}, Serving, map[], map[],
                                map[Ids.HALF := HubReq(0, path, Decided(k))],
                                NONE_YET[HubLabel(g, path, k) := 1], multiset{Ids.HALF}, multiset{}));
  }

  lemma RequestReplied(g: Gate, path: string, k: KernelOutcome) returns (states: seq<State>, steps: seq<Step>)
    requires PossibleOutcome(k)
    ensures Run(states, steps)
    ensures states[|steps|] == One(g, Handler(0, path, Waiting, Empty), {}, Holding(Ids.HALF, HubAnswer(g, path, k)),
                                   map[], map[], map[Ids.HALF := HubReq(0, path, Sent(k))],
                                   NONE_YET[HubLabel(g, path, k) := 1], multiset{Ids.HALF}, multiset{Ids.HALF})
  {
    states, steps := RequestDecided(g, path, k);
    var r, h := HubAnswer(g, path, k), Handler(0, path, Waiting, Empty);
    var hub := map[Ids.HALF := HubReq(0, path, Sent(k))];
    var counted, once := NONE_YET[HubLabel(g, path, k) := 1], multiset{Ids.HALF};
    states, steps := Extend(states, steps, ByHub(Ids.HALF, HubSend(true)),
                            One(g, h, {Ids.HALF}, Serving, map[], map[Ids.HALF := r], hub, counted, once, once));
    states, steps := Extend(states, steps, BySession(TakeReply(Ids.HALF)),
                            One(g, h, {}, Holding(Ids.HALF, r), map[], map[], hub, counted, once, once));
  }

  /** For every gate, path and answer of the kernel there is a run in which a request is numbered,
      sent and answered; an allowed request of an application spoke gets the kernel's own status
      and body. */
  lemma AnsweredRun(g: Gate, path: string, k: KernelOutcome) returns (states: seq<State>, steps: seq<Step>)
    requires PossibleOutcome(k)
    ensures Run(states, steps)
    ensures var s := states[|steps|];
      && s.handlers.Keys == {Ids.HALF} && s.handlers[Ids.HALF].pc.Done?
      && s.proxy.pending == {} && s.replies == map[] && s.session.Serving?
      && s.counted == NONE_YET[HubLabel(g, path, k) := 1]
      && CallerSees(s.handlers[Ids.HALF].pc.o) == EndToEnd(g, path, k)
      && (g.kind.Application? && path in g.allowed && k.Answered? ==>
            CallerSees(s.handlers[Ids.HALF].pc.o) == (k.status, k.body))
  {
    states, steps := RequestReplied(g, path, k);
    var r, h := HubAnswer(g, path, k), Handler(0, path, Waiting, Empty);
    var hub := map[Ids.HALF := HubReq(0, path, Sent(k))];
    var counted, once := NONE_YET[HubLabel(g, path, k) := 1], multiset{Ids.HALF};
    states, steps := Extend(states, steps, BySession(FillReply),
                            One(g, h.(slot := Filled(r)), {}, Serving, map[], map[], hub, counted, once, once));
    states, steps := Extend(states, steps, ByHandler(Ids.HALF, Receive),
                            One(g, h.(slot := Filled(r), pc := Done(Replied(r))), {}, Serving, map[], map[], hub,
                                counted, once, once));
    AppSeesEndToEnd(g, path, k);
  }
}
