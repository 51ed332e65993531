/** What proxied HTTP requests can rely on, over any number of drops and reconnects. */
module HttpTheorems {
  import opened Wire
  import opened HttpGate
  import opened HttpProxy
  import opened HttpProofs
  import Ids

  lemma RunLink(states: seq<State>, steps: seq<Step>, i: nat)
    requires Run(states, steps) && i < |steps|
    ensures Can(states[i], steps[i]) && states[i + 1] == Do(states[i], steps[i])
  {
  }

  lemma NumberedGrows(s: State, a: Step)
    requires Can(s, a)
    ensures s.numbered <= Do(s, a).numbered
  {
    match a
    case ByHandler(sid, b) => HandlerKeepsCount(s, sid, b);
    case BySession(b) => SessionKeepsCount(s, b);
    case ByHub(sid, b) => HubKeepsCount(s, sid, b);
    case _ =>
  }

  lemma HandlerKeepsCount(s: State, sid: Sid, a: HandlerAct)
    requires CanHandler(s, sid, a)
    ensures DoHandler(s, sid, a).numbered == s.numbered
  {
  }

  lemma SessionKeepsCount(s: State, a: SessionAct)
    requires CanSession(s, a)
    ensures DoSession(s, a).numbered == s.numbered
  {
  }

  lemma HubKeepsCount(s: State, sid: Sid, a: HubAct)
    requires CanHub(s, sid, a)
    ensures DoHub(s, sid, a).numbered == s.numbered
  {
  }

  /** The invariant holds along every run of at most 2^63 requests. */
  lemma {:induction false} RunInv(states: seq<State>, steps: seq<Step>, i: nat)
    requires Run(states, steps) && i < |states| && states[i].numbered <= Ids.HALF
    ensures Inv(states[i])
  {
    if i == 0 {
      InitInv(states[0]);
    } else {
      RunLink(states, steps, i - 1);
      NumberedGrows(states[i - 1], steps[i - 1]);
      RunInv(states, steps, i - 1);
      StepKeeps(states[i - 1], steps[i - 1]);
    }
  }

  /** The part of the invariant that keeps ids apart, with the step that follows it. */
  lemma RunRanged(states: seq<State>, steps: seq<Step>, i: nat)
    requires Run(states, steps) && i < |steps| && states[i + 1].numbered <= Ids.HALF
    ensures states[i].numbered <= Ids.HALF
    ensures Ranged(states[i].proxy, states[i].handlers, states[i].numbered)
    ensures Can(states[i], steps[i]) && states[i + 1] == Do(states[i], steps[i])
  {
    RunLink(states, steps, i);
    NumberedGrows(states[i], steps[i]);
    RunInv(states, steps, i);
  }

  /** The hub never saw the request and never will: its frame was never queued. */
  predicate NeverReachedHub(s: State, sid: Sid) {
    sid !in s.requests && sid !in s.hub && sid !in s.replies && s.seen[sid] == 0 && s.emitted[sid] == 0
  }

  /** Some session ended before step `i` and found the request pending. */
  ghost predicate DrainedBefore(states: seq<State>, steps: seq<Step>, i: nat, sid: Sid) {
    exists k {:trigger steps[k]} ::
      0 <= k < i && k < |steps| && k < |states| && steps[k] == BySession(Drain) && sid in states[k].proxy.pending
  }

  /** What a finished request may have been told, and what that says about its fate. */
  ghost predicate LegitimateOutcome(states: seq<State>, steps: seq<Step>, i: nat, sid: Sid, o: Outcome)
    requires i < |states| && sid in states[i].handlers
  {
    var s := states[i];
    match o
    case SendFailure => CallerSees(o) == (503, "tunnel send failed") && NeverReachedHub(s, sid)
    case TimedOut =>
      CallerSees(o) == (504, "hub response timeout") && s.handlers[sid].slot.Empty? && sid !in s.proxy.pending
    case ChannelClosed => false
    case Replied(r) =>
      || (r == FLUSH_REPLY && CallerSees(o) == (503, "tunnel session ended") && DrainedBefore(states, steps, i, sid))
      || (sid in s.hub && s.hub[sid].pc.Sent? && s.seen[sid] == 1 && s.emitted[sid] == 1
          && CallerSees(o) == EndToEnd(s.gate, s.handlers[sid].path, s.hub[sid].pc.k))
  }

  /** Every finished request was answered in one of four ways: with the hub's one answer to
      that very request; with the flush's 503, and then it was pending when a session ended;
      with 503 because it could not be sent, and then the hub never sees it; with 504, and then
      no reply had been handed to it. The "response channel closed" safety net is never
      reached. */
  lemma OutcomeIsLegitimate(states: seq<State>, steps: seq<Step>, i: nat, sid: Sid)
    requires Run(states, steps) && i < |states| && states[i].numbered <= Ids.HALF
    requires sid in states[i].handlers && states[i].handlers[sid].pc.Done?
    ensures LegitimateOutcome(states, steps, i, sid, states[i].handlers[sid].pc.o)
  {
    var s := states[i];
    RunInv(states, steps, i);
    RunLate(states, steps, i);
    var o := s.handlers[sid].pc.o;
    if o.Replied? {
      if o.r == FLUSH_REPLY {
        FlushedWasDrained(states, steps, i, sid);
      } else {
        AppSeesEndToEnd(s.gate, s.hub[sid].path, s.hub[sid].pc.k);
      }
    }
  }

  // ---- where a flush reply comes from ----

  predicate Flushed(s: State, sid: Sid) {
    && sid in s.handlers
    && (s.handlers[sid].slot == Filled(FLUSH_REPLY) || s.handlers[sid].pc == Done(Replied(FLUSH_REPLY)))
  }

  predicate AboutToFlush(s: State, sid: Sid) {
    s.session.Flushing? && sid in s.session.drained
  }

  lemma HubNeverFlushes(g: Gate, path: string, k: KernelOutcome)
    requires PossibleOutcome(k)
    ensures HubAnswer(g, path, k) != FLUSH_REPLY
  {
    var error := HubAnswer(g, path, k).error;
    assert error == "" || error[0] == 'r' || error[0] == 'u';
    assert FLUSH_REPLY.error[0] == 't';
  }

  lemma HandlerFlushed(s: State, sid: Sid, a: HandlerAct, x: Sid)
    requires CanHandler(s, sid, a) && Flushed(DoHandler(s, sid, a), x)
    ensures Flushed(s, x)
  {
  }

  lemma SessionFlushed(s: State, a: SessionAct, x: Sid)
    requires CanSession(s, a) && Flushed(DoSession(s, a), x)
    requires Matching(s.gate, s.handlers, s.session, s.replies, s.hub)
    ensures Flushed(s, x) || AboutToFlush(s, x)
  {
    if a.FillReply? {
      HubNeverFlushes(s.gate, s.hub[s.session.sid].path, s.hub[s.session.sid].pc.k);
    }
  }

  lemma SessionDrains(s: State, a: SessionAct, x: Sid)
    requires CanSession(s, a) && AboutToFlush(DoSession(s, a), x)
    ensures AboutToFlush(s, x) || (a.Drain? && x in s.proxy.pending)
  {
  }

  lemma StepFlushed(s: State, a: Step, x: Sid)
    requires Can(s, a) && Matching(s.gate, s.handlers, s.session, s.replies, s.hub)
    ensures Flushed(Do(s, a), x) ==> Flushed(s, x) || AboutToFlush(s, x)
    ensures AboutToFlush(Do(s, a), x) ==> AboutToFlush(s, x) || (a == BySession(Drain) && x in s.proxy.pending)
  {
    match a
    case ByHandler(sid, b) =>
      HandlerLeavesSession(s, sid, b);
      if Flushed(Do(s, a), x) {
        HandlerFlushed(s, sid, b, x);
      }
    case BySession(b) =>
      if Flushed(Do(s, a), x) {
        SessionFlushed(s, b, x);
      }
      if AboutToFlush(Do(s, a), x) {
        SessionDrains(s, b, x);
      }
    case ByHub(sid, b) =>
      HubLeavesSession(s, sid, b);
      HubLeavesHandlers(s, sid, b);
    case _ =>
  }

  /** Whoever was or is about to be given the flush reply was pending when a session ended. */
  lemma {:induction false} FlushedWasDrained(states: seq<State>, steps: seq<Step>, i: nat, x: Sid)
    requires Run(states, steps) && i < |states| && states[i].numbered <= Ids.HALF
    requires Flushed(states[i], x) || AboutToFlush(states[i], x)
    ensures DrainedBefore(states, steps, i, x)
  {
    if i > 0 {
      RunRanged(states, steps, i - 1);
      RunInv(states, steps, i - 1);
      StepFlushed(states[i - 1], steps[i - 1], x);
      if Flushed(states[i - 1], x) || AboutToFlush(states[i - 1], x) {
        FlushedWasDrained(states, steps, i - 1, x);
        var k :| 0 <= k < i - 1 && steps[k] == BySession(Drain) && x in states[k].proxy.pending;
        assert steps[k] == BySession(Drain);
      } else {
        assert steps[i - 1] == BySession(Drain);
      }
    }
  }

  /** A request whose send failed can be repeated safely: for the rest of the run the hub
      never gets to see it. */
  lemma UnsentNeverReachesHub(states: seq<State>, steps: seq<Step>, i: nat, j: nat, sid: Sid)
    requires Run(states, steps) && i <= j < |states| && states[j].numbered <= Ids.HALF
    requires sid in states[i].handlers && states[i].handlers[sid].pc == Done(SendFailure)
    ensures NeverReachedHub(states[j], sid)
  {
    OneOutcome(states, steps, i, j, sid);
    OutcomeIsLegitimate(states, steps, j, sid);
  }

  /** A handler whose time ran out has no reply in its channel. */
  predicate Late(hs: map<Sid, Handler>) {
    forall x :: x in hs && (hs[x].pc.Expired? || hs[x].pc == Done(TimedOut)) ==> hs[x].slot.Empty?
  }

  lemma HandlerKeepsLate(s: State, sid: Sid, a: HandlerAct)
    requires Late(s.handlers) && CanHandler(s, sid, a)
    ensures Late(DoHandler(s, sid, a).handlers)
  {
  }

  lemma SessionKeepsLate(s: State, a: SessionAct)
    requires Late(s.handlers) && CanSession(s, a)
    ensures Late(DoSession(s, a).handlers)
  {
  }

  lemma {:induction false} RunLate(states: seq<State>, steps: seq<Step>, i: nat)
    requires Run(states, steps) && i < |states|
    ensures Late(states[i].handlers)
  {
    if i > 0 {
      RunLink(states, steps, i - 1);
      RunLate(states, steps, i - 1);
      match steps[i - 1] {
        case ByHandler(sid, b) => HandlerKeepsLate(states[i - 1], sid, b);
        case BySession(b) => SessionKeepsLate(states[i - 1], b);
        case ByHub(sid, b) => HubLeavesHandlers(states[i - 1], sid, b);
        case _ =>
      }
    }
  }

  lemma HubLeavesHandlers(s: State, sid: Sid, a: HubAct)
    requires CanHub(s, sid, a)
    ensures DoHub(s, sid, a).handlers == s.handlers
  {
  }

  /** The first outcome is the only one: nothing that happens later changes it. */
  lemma {:induction false} OneOutcome(states: seq<State>, steps: seq<Step>, i: nat, j: nat, sid: Sid)
    requires Run(states, steps) && i <= j < |states| && states[j].numbered <= Ids.HALF
    requires sid in states[i].handlers && states[i].handlers[sid].pc.Done?
    ensures sid in states[j].handlers && states[j].handlers[sid].pc == states[i].handlers[sid].pc
  {
    if i < j {
      RunRanged(states, steps, j - 1);
      OneOutcome(states, steps, i, j - 1, sid);
      StepHandlers(states[j - 1], steps[j - 1], sid);
    }
  }

  /** The pending map never keeps an entry of a finished request, also when the request
      registered after the flush had already drained the map. */
  lemma NoStalePending(states: seq<State>, steps: seq<Step>, i: nat, sid: Sid)
    requires Run(states, steps) && i < |states| && states[i].numbered <= Ids.HALF
    requires sid in states[i].proxy.pending
    ensures sid in states[i].handlers && !states[i].handlers[sid].pc.Done?
  {
    RunInv(states, steps, i);
  }

  /** The hub sends at most one response per request frame, exactly one when its channel
      took it, and its result counters count every decided request once. */
  lemma HubAnswersOnce(states: seq<State>, steps: seq<Step>, i: nat, sid: Sid, l: Label)
    requires Run(states, steps) && i < |states| && states[i].numbered <= Ids.HALF
    ensures var s := states[i];
      && s.seen[sid] == OneIf(sid in s.hub)
      && s.emitted[sid] == OneIf(sid in s.hub && s.hub[sid].pc.Sent?)
      && l in s.counted && s.counted[l] == |DecidedAs(s.gate, s.hub, l)|
  {
    RunInv(states, steps, i);
  }

  /** A request whose reply is on its way is counted under the label that reply shows. */
  lemma LabelFollowsReply(states: seq<State>, steps: seq<Step>, i: nat, sid: Sid)
    requires Run(states, steps) && i < |states| && states[i].numbered <= Ids.HALF
    requires sid in states[i].replies
    ensures var s := states[i];
      && (sid in DecidedAs(s.gate, s.hub, RejectedKind) <==> s.replies[sid].error == "rejected_kind")
      && (sid in DecidedAs(s.gate, s.hub, RejectedPath) <==> s.replies[sid].error == "rejected_path")
      && (sid in DecidedAs(s.gate, s.hub, Forwarded) <==> s.replies[sid].error == "")
      && (sid in DecidedAs(s.gate, s.hub, UpstreamErr) <==> s.replies[sid].error != "" && s.replies[sid].status == 0)
  {
    RunInv(states, steps, i);
    var s := states[i];
    LabelMeans(s.gate, s.hub[sid].path, s.hub[sid].pc.k);
  }

  // ---- the flush ----

  predicate Settled(s: State, sid: Sid) {
    && s.session.Flushing? && sid in s.handlers
    && (sid in s.session.drained || Released(s.handlers[sid]))
  }

  lemma FlushStep(s: State, a: Step, sid: Sid)
    requires Ranged(s.proxy, s.handlers, s.numbered) && Can(s, a) && Do(s, a).numbered <= Ids.HALF
    requires Settled(s, sid) && a != BySession(Reconnect)
    ensures Settled(Do(s, a), sid)
  {
    StepHandlers(s, a, sid);
    SessionMoves(s, a);
  }

  /** While flushing, the session task only works off the drained list. */
  lemma SessionMoves(s: State, a: Step)
    requires Can(s, a) && s.session.Flushing? && a != BySession(Reconnect)
    ensures Do(s, a).session == if a.BySession? && a.session.FlushOne?
                                then Flushing(s.session.drained - {a.session.sid}) else s.session
  {
    match a
    case ByHandler(sid, b) => HandlerLeavesSession(s, sid, b);
    case ByHub(sid, b) => HubLeavesSession(s, sid, b);
    case _ =>
  }

  lemma HandlerLeavesSession(s: State, sid: Sid, a: HandlerAct)
    requires CanHandler(s, sid, a)
    ensures DoHandler(s, sid, a).session == s.session
  {
  }

  lemma HubLeavesSession(s: State, sid: Sid, a: HubAct)
    requires CanHub(s, sid, a)
    ensures DoHub(s, sid, a).session == s.session
  {
  }

  lemma {:induction false} FlushHolds(states: seq<State>, steps: seq<Step>, i: nat, j: nat, sid: Sid)
    requires Run(states, steps) && i < j < |states| && states[j].numbered <= Ids.HALF
    requires steps[i] == BySession(Drain) && sid in states[i].proxy.pending && sid in states[i].handlers
    requires forall k :: i < k < j ==> steps[k] != BySession(Reconnect)
    ensures Settled(states[j], sid)
  {
    RunRanged(states, steps, j - 1);
    if i + 1 < j {
      FlushHolds(states, steps, i, j - 1, sid);
      FlushStep(states[j - 1], steps[j - 1], sid);
    }
  }

  /** By the time the spoke reconnects, every request that was pending when the flush
      drained the map has been released. */
  lemma FlushReleases(states: seq<State>, steps: seq<Step>, i: nat, j: nat, sid: Sid)
    requires Run(states, steps) && i < j < |steps| && states[j + 1].numbered <= Ids.HALF
    requires steps[i] == BySession(Drain) && sid in states[i].proxy.pending
    requires steps[j] == BySession(Reconnect) && forall k :: i < k < j ==> steps[k] != BySession(Reconnect)
    ensures sid in states[j + 1].handlers && Released(states[j + 1].handlers[sid])
  {
    RunRanged(states, steps, j);
    NumberedUpTo(states, steps, i, j);
    NoStalePending(states, steps, i, sid);
    FlushHolds(states, steps, i, j, sid);
  }

  lemma {:induction false} NumberedUpTo(states: seq<State>, steps: seq<Step>, i: nat, j: nat)
    requires Run(states, steps) && i <= j < |states|
    ensures states[i].numbered <= states[j].numbered
  {
    if i < j {
      RunLink(states, steps, j - 1);
      NumberedGrows(states[j - 1], steps[j - 1]);
      NumberedUpTo(states, steps, i, j - 1);
    }
  }
}
