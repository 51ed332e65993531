/** The tasks of a session cannot keep each other busy for ever: what they still have to do is a
    number that each step of their own makes smaller, and when it is done everything is delivered. */
module TunnelLiveness {
  import opened Wire
  import opened Stream
  import opened Tunnel
  import opened TunnelProofs
  import opened TunnelTheorems
  import opened StreamProgress
  import opened TunnelProgress
  import opened Totals
  import S = StreamProofs

  // ---- the work left ----

  function AcceptWork(pc: AcceptPc): nat {
    match pc
    case Allocated => 13
    case Registered => 12
    case Counted => 11
    case OpenFailed => 1
    case _ => 0
  }

  function UpWork(pc: UpPc): nat {
    match pc
    case UpSend(_) => 11
    case UpEof => 12
    case UpLeaving(_) => 1
    case _ => 0
  }

  function DnWork(pc: DnPc): nat {
    match pc
    case DnWrite(_) => 3
    case DnIdle => 2
    case DnClosing(_) => 1
    case DnGone(_) => 0
  }

  function ConnWork(c: Conn): nat {
    AcceptWork(c.accept) + UpWork(c.up) + DnWork(c.dn) + 2 * |c.writer|
  }

  function PumpWork(pc: PumpPc): nat {
    match pc
    case PumpSend(_) => 10
    case DialFailed => 9
    case PumpEof => 9
    case Dialing => 3
    case PumpWrite(_) => 3
    case PumpIdle => 2
    case PumpLeaving(_) => 1
    case _ => 0
  }

  function TargetWork(t: Target): nat {
    PumpWork(t.pump) + 2 * |t.inbound|
  }

  function RecvWork(l: HubLoop): nat {
    match l
    case HubGot(_) => 6
    case HubDeliver(_, _) => 5
    case HubEvict(_) => 1
    case _ => 0
  }

  function LoopWork(l: SpokeLoop): nat {
    match l
    case SpokeGot(_) => 9
    case SpokeReject(_) => 8
    case SpokeDeliver(_, _) => 3
    case _ => 0
  }

  /** What the tasks of the session still have to do by themselves. */
  ghost function Work(m: Session): nat {
    Total(m.conns, ConnWork) + Total(m.targets, TargetWork)
    + 10 * |m.wires.down| + 7 * |m.wires.back| + LoopWork(m.loop) + RecvWork(m.recv)
  }

  // ---- every step of their own makes it less ----

  lemma AcceptWorks(m: Session, sid: Sid, a: AcceptAct)
    requires CanStep(m, AtAccept(sid, a))
    ensures Work(AcceptStep(m, sid, a)) < Work(m)
  {
    TotalUpdate(m.conns, ConnWork, sid, AcceptStep(m, sid, a).conns[sid]);
  }

  lemma UpWorks(m: Session, sid: Sid, a: UpAct)
    requires CanStep(m, AtUp(sid, a)) && InternalStep(AtUp(sid, a))
    ensures Work(UpStep(m, sid, a)) < Work(m)
  {
    TotalUpdate(m.conns, ConnWork, sid, UpStep(m, sid, a).conns[sid]);
  }

  lemma DnWorks(m: Session, sid: Sid, a: DnAct)
    requires CanStep(m, AtDn(sid, a)) && InternalStep(AtDn(sid, a))
    ensures Work(DnStep(m, sid, a)) < Work(m)
  {
    TotalUpdate(m.conns, ConnWork, sid, DnStep(m, sid, a).conns[sid]);
  }

  lemma RecvWorks(m: Session, a: RecvAct)
    requires CanRecvStep(m, a)
    ensures Work(RecvStep(m, a)) < Work(m)
  {
    if a.RecvPush? && !ConnOf(m, m.recv.sid).dn.DnGone? {
      TotalUpdate(m.conns, ConnWork, m.recv.sid, RecvStep(m, a).conns[m.recv.sid]);
    }
  }

  lemma LoopWorks(m: Session, a: LoopAct)
    requires CanLoopStep(m, a)
    ensures Work(LoopStep(m, a)) < Work(m)
  {
    var sid := SpokeBusyWith(m.loop);
    var n := LoopStep(m, a);
    if n.targets != m.targets {
      TotalUpdate(m.targets, TargetWork, sid, n.targets[sid]);
    }
  }

  /** A send makes at most one frame, and is worth more than that. */
  lemma PumpSendTurns(m: Session, sid: Sid, a: PumpAct)
    requires CanStep(m, AtPump(sid, a)) && PumpSends(a)
    ensures var n := PumpStep(m, sid, a);
      && sid in n.targets && n == m.(targets := m.targets[sid := n.targets[sid]], wires := n.wires)
      && TargetWork(n.targets[sid]) + 8 <= TargetWork(m.targets[sid])
      && n.wires.down == m.wires.down && |n.wires.back| <= |m.wires.back| + 1
  {
  }

  lemma PumpSendWorks(m: Session, sid: Sid, a: PumpAct)
    requires CanStep(m, AtPump(sid, a)) && PumpSends(a)
    ensures Work(PumpStep(m, sid, a)) < Work(m)
  {
    PumpSendTurns(m, sid, a);
    TotalUpdate(m.targets, TargetWork, sid, PumpStep(m, sid, a).targets[sid]);
  }

  lemma PumpTurns(m: Session, sid: Sid, a: PumpAct)
    requires CanStep(m, AtPump(sid, a)) && InternalStep(AtPump(sid, a)) && !PumpSends(a)
    ensures var n := PumpStep(m, sid, a);
      && sid in n.targets && n == m.(targets := m.targets[sid := n.targets[sid]], inMap := n.inMap)
      && TargetWork(n.targets[sid]) < TargetWork(m.targets[sid])
  {
  }

  lemma PumpWorks(m: Session, sid: Sid, a: PumpAct)
    requires CanStep(m, AtPump(sid, a)) && InternalStep(AtPump(sid, a))
    ensures Work(PumpStep(m, sid, a)) < Work(m)
  {
    if PumpSends(a) {
      PumpSendWorks(m, sid, a);
    } else {
      PumpTurns(m, sid, a);
      TotalUpdate(m.targets, TargetWork, sid, PumpStep(m, sid, a).targets[sid]);
    }
  }

  lemma StepWorks(m: Session, s: Step)
    requires CanStep(m, s) && InternalStep(s)
    ensures Work(Do(m, s)) < Work(m)
  {
    match s
    case AtAccept(sid, a) => AcceptWorks(m, sid, a);
    case AtUp(sid, a) => UpWorks(m, sid, a);
    case AtDn(sid, a) => DnWorks(m, sid, a);
    case AtRecv(a) => RecvWorks(m, a);
    case AtLoop(a) => LoopWorks(m, a);
    case AtPump(sid, a) => PumpWorks(m, sid, a);
  }

  // ---- and reads nothing new ----

  /** What a stretch of the tasks' own steps leaves as it is. */
  predicate SameInput(m: Session, n: Session) {
    && n.accepted == m.accepted && n.wires.hubTx == m.wires.hubTx && n.wires.spokeTx == m.wires.spokeTx
    && n.recv.HubEnded? == m.recv.HubEnded? && n.loop.SpokeEnded? == m.loop.SpokeEnded?
  }

  lemma HubStepInput(m: Session, s: Step)
    requires CanStep(m, s) && (s.AtAccept? || s.AtUp? || s.AtDn?)
    ensures SameInput(m, Do(m, s))
  {
  }

  lemma PumpStepInput(m: Session, sid: Sid, a: PumpAct)
    requires CanStep(m, AtPump(sid, a))
    ensures SameInput(m, PumpStep(m, sid, a))
  {
  }

  lemma StepInput(m: Session, s: Step)
    requires CanStep(m, s) && InternalStep(s)
    ensures SameInput(m, Do(m, s))
  {
    match s
    case AtPump(sid, a) => PumpStepInput(m, sid, a);
    case AtRecv(_) =>
    case AtLoop(_) =>
    case _ => HubStepInput(m, s);
  }

  lemma ActReadsNothing(p: Pipe, a: Act)
    requires Enabled(p, a) && Internal(a)
    ensures Apply(p, a).hist.hubRead == p.hist.hubRead && Apply(p, a).hist.targetRead == p.hist.targetRead
  {
  }

  lemma StepReadsNothing(m: Session, s: Step, x: Sid)
    requires CanStep(m, s) && InternalStep(s)
    ensures HistoryOf(Do(m, s), x).hubRead == HistoryOf(m, x).hubRead
    ensures HistoryOf(Do(m, s), x).targetRead == HistoryOf(m, x).targetRead
  {
    StepProjects(m, s, x);
    if Concerns(m, s, x) {
      ActReadsNothing(View(m, x), ActOf(s));
    }
    assert HistoryOf(m, x) == View(m, x).hist && HistoryOf(Do(m, s), x) == View(Do(m, s), x).hist;
  }

  // ---- main results ----

  /** From state `i` to state `j` the tasks were left to themselves. */
  predicate Undisturbed(steps: seq<Step>, i: int, j: int) {
    0 <= i <= j <= |steps| && forall k {:trigger steps[k]} :: i <= k < j ==> InternalStep(steps[k])
  }

  /** The same input, and nothing more read on stream `x`. */
  predicate NothingRead(m: Session, n: Session, x: Sid) {
    && SameInput(m, n)
    && HistoryOf(n, x).hubRead == HistoryOf(m, x).hubRead
    && HistoryOf(n, x).targetRead == HistoryOf(m, x).targetRead
  }

  lemma StepAlone(m: Session, s: Step, x: Sid)
    requires CanStep(m, s) && InternalStep(s)
    ensures Work(Do(m, s)) < Work(m) && NothingRead(m, Do(m, s), x)
  {
    StepWorks(m, s);
    StepInput(m, s);
    StepReadsNothing(m, s, x);
  }

  lemma NothingReadSince(m: Session, n: Session, o: Session, x: Sid)
    requires NothingRead(m, n, x) && NothingRead(n, o, x)
    ensures NothingRead(m, o, x)
  {
  }

  lemma {:induction false} LeftToThemselves(states: seq<Session>, steps: seq<Step>, i: nat, j: nat, x: Sid)
    requires Run(states, steps) && Undisturbed(steps, i, j)
    ensures Work(states[j]) + (j - i) <= Work(states[i]) && NothingRead(states[i], states[j], x)
    decreases j
  {
    if i < j {
      LeftToThemselves(states, steps, i, j - 1, x);
      RunLink(states, steps, j - 1);
      StepAlone(states[j - 1], steps[j - 1], x);
      NothingReadSince(states[i], states[j - 1], states[j], x);
    }
  }

  /** Left to themselves on a link that is up, the tasks of a session stop after at most `Work`
      steps, in whatever order they take them, and once they have stopped, all that was read at
      either end of any stream is at the other end, if that is still there. */
  lemma EverythingArrives(states: seq<Session>, steps: seq<Step>, i: nat, j: nat, x: Sid)
    requires Run(states, steps) && Undisturbed(steps, i, j) && states[i].accepted < U64_RANGE
    requires states[i].wires.hubTx && states[i].wires.spokeTx
    requires !states[i].recv.HubEnded? && !states[i].loop.SpokeEnded?
    ensures j - i <= Work(states[i])
    ensures AtRest(states[j]) ==>
      && Settled(View(states[j], x))
      && (TargetOf(states[j], x).pump.PumpIdle? ==>
            HistoryOf(states[j], x).targetWritten == HistoryOf(states[i], x).hubRead)
      && (ConnOf(states[j], x).accept.Running? && ConnOf(states[j], x).dn.DnIdle? ==>
            HistoryOf(states[j], x).hubWritten == HistoryOf(states[i], x).targetRead)
  {
    LeftToThemselves(states, steps, i, j, x);
    if AtRest(states[j]) {
      RestIsDelivered(states, steps, j, x);
    }
  }

  lemma OneMore(before: seq<Session>, past: seq<Step>, s: Step)
    requires Run(before, past) && CanStep(before[|past|], s)
    ensures var n := Do(before[|past|], s); Run(before + [n], past + [s]) && (before + [n])[|past| + 1] == n
  {
  }

  /** And they can always get there: every run can be continued by steps of the tasks alone to a
      state in which they have stopped. */
  lemma {:induction false} CanComeToRest(before: seq<Session>, past: seq<Step>)
    returns (states: seq<Session>, steps: seq<Step>)
    requires Run(before, past)
    ensures Run(states, steps) && before <= states && past <= steps
    ensures Undisturbed(steps, |past|, |steps|) && AtRest(states[|steps|])
    decreases Work(before[|past|])
  {
    if s :| InternalStep(s) && CanStep(before[|past|], s) {
      StepWorks(before[|past|], s);
      OneMore(before, past, s);
      states, steps := CanComeToRest(before + [Do(before[|past|], s)], past + [s]);
    } else {
      states, steps := before, past;
    }
  }
}
