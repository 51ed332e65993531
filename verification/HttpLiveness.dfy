/** Left to themselves, the tasks behind proxied requests finish their work, and then every
    request that can be answered has been. */
module HttpLiveness {
  import opened Wire
  import opened HttpGate
  import opened HttpProxy
  import opened HttpProofs
  import opened HttpTheorems
  import opened HttpProgress
  import opened Totals
  import Ids

  // ---- the work left ----

  function HandlerWork(h: Handler): nat {
    match h.pc
    case Numbered => 9
    case Pending => 7
    case Waiting | SendFailed | Expired => 1
    case Done(_) => 0
  }

  function HubWork(q: HubReq): nat {
    match q.pc
    case Received => 4
    case Decided(_) => 3
    case _ => 0
  }

  function SessionWork(t: SessionPc): nat {
    match t
    case Serving => 0
    case Connecting => 1
    case Holding(_, _) => 1
    case Flushing(drained) => 2 + |drained|
    case Detached => 3
    case Ending => 4
  }

  ghost function Work(s: State): nat {
    Total(s.handlers, HandlerWork) + Total(s.hub, HubWork) + SessionWork(s.session)
    + 5 * |s.requests| + 2 * |s.replies| + |s.proxy.pending|
  }

  lemma Resized<V>(m: map<Sid, V>, x: Sid, v: V)
    ensures |m[x := v]| <= |m| + 1 && |m - {x}| == |m| - if x in m then 1 else 0
  {
    if x in m {
      assert m == (m - {x})[x := m[x]];
    } else {
      assert m - {x} == m;
    }
  }

  // ---- every step of their own makes it less ----

  lemma SendWorks(s: State, sid: Sid)
    requires CanHandler(s, sid, SendOk)
    ensures Work(DoHandler(s, sid, SendOk)) < Work(s)
  {
    TotalUpdate(s.handlers, HandlerWork, sid, s.handlers[sid].(pc := Waiting));
    Resized(s.requests, sid, s.handlers[sid].epoch);
  }

  lemma OtherHandlerWorks(s: State, sid: Sid, a: HandlerAct)
    requires CanHandler(s, sid, a) && Internal(ByHandler(sid, a)) && !a.SendOk?
    ensures Work(DoHandler(s, sid, a)) < Work(s)
  {
    var h := DoHandler(s, sid, a).handlers[sid];
    TotalUpdate(s.handlers, HandlerWork, sid, h);
    assert HandlerWork(h) < HandlerWork(s.handlers[sid]);
    assert a.Insert? ==> HandlerWork(h) + 2 == HandlerWork(s.handlers[sid]);
    PendingSizes(s.proxy.pending, sid);
  }

  lemma PendingSizes(pending: set<Sid>, sid: Sid)
    ensures |pending + {sid}| <= |pending| + 1 && |pending - {sid}| <= |pending|
  {
    assert |pending + {sid}| == |pending| + |{sid}| - |pending * {sid}|;
  }

  lemma HandlerWorks(s: State, sid: Sid, a: HandlerAct)
    requires CanHandler(s, sid, a) && Internal(ByHandler(sid, a))
    ensures Work(DoHandler(s, sid, a)) < Work(s)
  {
    if a.SendOk? {
      SendWorks(s, sid);
    } else {
      OtherHandlerWorks(s, sid, a);
    }
  }

  /** Filling a slot is no work done or made. */
  lemma FillWorks(hs: map<Sid, Handler>, sid: Sid, r: HttpResponse)
    ensures Total(Fill(hs, sid, r), HandlerWork) == Total(hs, HandlerWork)
  {
    if sid in hs {
      TotalUpdate(hs, HandlerWork, sid, hs[sid].(slot := Filled(r)));
    }
  }

  lemma SessionWorks(s: State, a: SessionAct)
    requires CanSession(s, a) && Internal(BySession(a))
    ensures Work(DoSession(s, a)) < Work(s)
  {
    match a
    case TakeReply(sid) => Resized(s.replies, sid, s.replies[sid]);
    case FillReply => FillWorks(s.handlers, s.session.sid, s.session.r);
    case FlushOne(sid) => FillWorks(s.handlers, sid, FLUSH_REPLY);
    case _ =>
  }

  lemma ReceiveWorks(s: State, sid: Sid)
    requires CanHub(s, sid, HubReceive)
    ensures Work(DoHub(s, sid, HubReceive)) < Work(s)
  {
    TotalUpdate(s.hub, HubWork, sid, HubReq(s.requests[sid], s.handlers[sid].path, Received));
    Resized(s.requests, sid, s.requests[sid]);
  }

  lemma DecideWorks(s: State, sid: Sid, k: KernelOutcome)
    requires CanHub(s, sid, HubDecide(k))
    ensures Work(DoHub(s, sid, HubDecide(k))) < Work(s)
  {
    TotalUpdate(s.hub, HubWork, sid, s.hub[sid].(pc := Decided(k)));
  }

  lemma ReplyWorks(s: State, sid: Sid)
    requires CanHub(s, sid, HubSend(true))
    ensures Work(DoHub(s, sid, HubSend(true))) < Work(s)
  {
    var q := s.hub[sid];
    TotalUpdate(s.hub, HubWork, sid, q.(pc := Sent(q.pc.k)));
    Resized(s.replies, sid, HubAnswer(s.gate, q.path, q.pc.k));
  }

  lemma HubWorks(s: State, sid: Sid, a: HubAct)
    requires CanHub(s, sid, a) && Internal(ByHub(sid, a))
    ensures Work(DoHub(s, sid, a)) < Work(s)
  {
    match a
    case HubReceive => ReceiveWorks(s, sid);
    case HubDecide(k) => DecideWorks(s, sid, k);
    case HubSend(_) => ReplyWorks(s, sid);
  }

  lemma StepWorks(s: State, a: Step)
    requires Can(s, a) && Internal(a)
    ensures Work(Do(s, a)) < Work(s) && Do(s, a).numbered == s.numbered
  {
    match a
    case ByHandler(sid, b) =>
      HandlerWorks(s, sid, b);
      HandlerKeepsCount(s, sid, b);
    case BySession(b) =>
      SessionWorks(s, b);
      SessionKeepsCount(s, b);
    case ByHub(sid, b) =>
      HubWorks(s, sid, b);
      HubKeepsCount(s, sid, b);
  }

  // ---- main results ----

  /** From state `i` to state `j` the tasks were left to themselves. */
  predicate Undisturbed(steps: seq<Step>, i: int, j: int) {
    0 <= i <= j <= |steps| && forall k {:trigger steps[k]} :: i <= k < j ==> Internal(steps[k])
  }

  lemma {:induction false} LeftToThemselves(states: seq<State>, steps: seq<Step>, i: nat, j: nat)
    requires Run(states, steps) && Undisturbed(steps, i, j)
    ensures Work(states[j]) + (j - i) <= Work(states[i]) && states[j].numbered == states[i].numbered
    decreases j
  {
    if i < j {
      LeftToThemselves(states, steps, i, j - 1);
      RunLink(states, steps, j - 1);
      StepWorks(states[j - 1], steps[j - 1]);
    }
  }

  /** Left to themselves, the tasks stop after at most `Work` steps, in whatever order they take
      them, and then every request on the session that stands has been answered, unless a frame of
      it was lost before or the hub could not send the answer. */
  lemma EveryRequestIsAnswered(states: seq<State>, steps: seq<Step>, i: nat, j: nat, x: Sid)
    requires Run(states, steps) && Undisturbed(steps, i, j) && states[i].numbered <= Ids.HALF
    ensures j - i <= Work(states[i])
    ensures AtRest(states[j]) && x in states[j].handlers && states[j].handlers[x].epoch == states[j].epoch ==>
      || states[j].handlers[x].pc.Done?
      || FrameLost(steps, i, x) || (x in states[j].hub && states[j].hub[x].pc.Unsent?)
  {
    LeftToThemselves(states, steps, i, j);
    if AtRest(states[j]) {
      RestIsAnswered(states, steps, j, x);
      if FrameLost(steps, j, x) {
        LostBefore(steps, i, j, x);
      }
    }
  }

  lemma LostBefore(steps: seq<Step>, i: nat, j: nat, x: Sid)
    requires Undisturbed(steps, i, j) && FrameLost(steps, j, x)
    ensures FrameLost(steps, i, x)
  {
    var k :| 0 <= k < j && k < |steps| && (steps[k] == LoseRequest(x) || steps[k] == LoseReply(x));
    assert k >= i ==> Internal(steps[k]);
  }

  /** And they can always get there: every run can be continued by steps of the tasks alone to a
      state in which they have stopped. */
  lemma {:induction false} CanComeToRest(before: seq<State>, past: seq<Step>)
    returns (states: seq<State>, steps: seq<Step>)
    requires Run(before, past)
    ensures Run(states, steps) && before <= states && past <= steps
    ensures Undisturbed(steps, |past|, |steps|) && AtRest(states[|steps|])
    decreases Work(before[|past|])
  {
    if a :| Internal(a) && Can(before[|past|], a) {
      StepWorks(before[|past|], a);
      states, steps := CanComeToRest(before + [Do(before[|past|], a)], past + [a]);
    } else {
      states, steps := before, past;
    }
  }
}
