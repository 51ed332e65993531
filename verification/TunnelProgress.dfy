/** When no task of a session can do anything more by itself, every stream has settled: the
    tunnel neither loses a byte or an end of file on the way nor gets stuck with one. */
module TunnelProgress {
  import opened Wire
  import opened Stream
  import opened Tunnel
  import opened TunnelProofs
  import opened TunnelTheorems
  import opened StreamProgress
  import S = StreamProofs

  // ---- the maps, in every run ----

  /** Every stream the spoke has an entry for was opened there. */
  predicate TargetsOpened(m: Session) {
    forall x :: x in m.targets ==> !m.targets[x].pump.Unopened?
  }

  lemma PumpKeepsOpened(m: Session, sid: Sid, a: PumpAct)
    requires TargetsOpened(m) && CanStep(m, AtPump(sid, a))
    ensures TargetsOpened(PumpStep(m, sid, a))
  {
  }

  lemma LoopKeepsOpened(m: Session, a: LoopAct)
    requires TargetsOpened(m) && CanLoopStep(m, a)
    requires a.LoopPush? ==> !TargetOf(m, m.loop.sid).pump.Unopened?
    ensures TargetsOpened(LoopStep(m, a))
  {
  }

  lemma HubLeavesTargets(m: Session, s: Step)
    requires CanStep(m, s) && !s.AtLoop? && !s.AtPump?
    ensures Do(m, s).targets == m.targets
  {
  }

  lemma StepKeepsOpened(m: Session, s: Step)
    requires TargetsOpened(m) && CanStep(m, s) && forall x: Sid :: S.Inv(View(m, x))
    ensures TargetsOpened(Do(m, s))
  {
    match s
    case AtPump(sid, a) => PumpKeepsOpened(m, sid, a);
    case AtLoop(a) =>
      if a.LoopPush? {
        assert S.Inv(View(m, m.loop.sid)) && View(m, m.loop.sid).spoke.loop.LoopDeliver?;
      }
      LoopKeepsOpened(m, a);
    case _ => HubLeavesTargets(m, s);
  }

  lemma {:induction false} RunOpened(states: seq<Session>, steps: seq<Step>, i: nat)
    requires Run(states, steps) && i < |states| && states[i].accepted < U64_RANGE
    ensures TargetsOpened(states[i])
  {
    if i > 0 {
      RunLink(states, steps, i - 1);
      AcceptedGrows(states[i - 1], steps[i - 1]);
      RunOpened(states, steps, i - 1);
      RunGood(states, steps, i - 1);
      StepKeepsOpened(states[i - 1], steps[i - 1]);
    }
  }

  /** In every state of every run: the spoke's map holds a stream exactly from its Open until its
      pump leaves or the hub's Close is handled; the hub's map from the registration until the
      upstream task, the spoke's Close, an eviction, a rollback or the session's end took it
      out; and no task gave up or kept quiet about an end of file on a link that was up. */
  lemma {:induction false} MapsAreExact(states: seq<Session>, steps: seq<Step>, i: nat, x: Sid)
    requires Run(states, steps) && i < |states| && states[i].accepted < U64_RANGE
    ensures Exact(View(states[i], x))
  {
    if i == 0 {
      assert View(states[0], x) == Start(true, true);
      StartExact(true, true);
    } else {
      var m, s := states[i - 1], steps[i - 1];
      RunLink(states, steps, i - 1);
      AcceptedGrows(m, s);
      MapsAreExact(states, steps, i - 1, x);
      RunGood(states, steps, i - 1);
      FreshWhenNew(m, s);
      StepProjects(m, s, x);
      assert S.Inv(View(m, x));
      if Concerns(m, s, x) {
        StepExact(View(m, x), ActOf(s));
      }
    }
  }

  // ---- at rest ----

  /** What the session's tasks do by themselves. */
  predicate InternalStep(s: Step) {
    match s
    case AtAccept(_, _) => Internal(ActOf(s))
    case AtUp(_, _) => Internal(ActOf(s))
    case AtDn(_, _) => Internal(ActOf(s))
    case AtRecv(_) => true
    case AtLoop(_) => true
    case AtPump(_, _) => Internal(ActOf(s))
    case _ => false
  }

  ghost predicate AtRest(m: Session) {
    forall s: Step :: InternalStep(s) ==> !CanStep(m, s)
  }

  /** A writer channel that is full has a task that can make room. */
  lemma WriterMoves(m: Session, sid: Sid)
    requires sid in m.conns && m.conns[sid].accept.Running? && m.conns[sid].writer != [] && !m.conns[sid].dn.DnGone?
    ensures !AtRest(m)
  {
    var c := m.conns[sid];
    if c.dn.DnIdle? {
      assert InternalStep(AtDn(sid, Take)) && CanStep(m, AtDn(sid, Take));
    } else if c.dn.DnWrite? {
      assert InternalStep(AtDn(sid, WriteOk)) && CanStep(m, AtDn(sid, WriteOk));
    } else {
      assert InternalStep(AtDn(sid, Exit)) && CanStep(m, AtDn(sid, Exit));
    }
  }

  /** So has a full inbound channel. */
  lemma PumpMoves(m: Session, sid: Sid)
    requires sid in m.targets && m.targets[sid].inbound != []
    requires var pump := m.targets[sid].pump; !pump.Unopened? && !pump.Rejected? && !pump.PumpGone?
    ensures !AtRest(m)
  {
    var a := match m.targets[sid].pump
      case Dialing => DialOk
      case DialFailed => SendDialClose
      case PumpSend(_) => PumpSendData
      case PumpEof => PumpSendEof
      case PumpWrite(_) => PumpWriteOk
      case PumpLeaving(_) => PumpRemove
      case _ => PumpTake;
    assert InternalStep(AtPump(sid, a)) && CanStep(m, AtPump(sid, a));
  }

  lemma RecvLoopAtRest(m: Session)
    requires AtRest(m) && !m.recv.HubEnded? && forall x: Sid :: S.Inv(View(m, x))
    ensures m.recv.HubIdle? && m.wires.back == []
  {
    assert !CanStep(m, AtRecv(RecvTake)) && !CanStep(m, AtRecv(RecvHandle));
    assert !CanStep(m, AtRecv(RecvPush)) && !CanStep(m, AtRecv(RecvRemove));
    if m.recv.HubDeliver? {
      var sid := m.recv.sid;
      assert S.Inv(View(m, sid)) && View(m, sid).hub.recv.RecvDeliver?;
      DeliverIsKnown(m);
      S.OrderOf(View(m, sid));
      WriterMoves(m, sid);
    }
  }

  lemma SessionLoopAtRest(m: Session)
    requires AtRest(m) && !m.loop.SpokeEnded? && TargetsOpened(m) && forall x: Sid :: S.Inv(View(m, x))
    ensures m.loop.SpokeIdle? && m.wires.down == []
  {
    assert !CanStep(m, AtLoop(LoopTake)) && !CanStep(m, AtLoop(LoopHandle(true)));
    assert !CanStep(m, AtLoop(LoopPush)) && !CanStep(m, AtLoop(LoopRefuse));
    if m.loop.SpokeGot? && m.loop.f.kind.Open? {
      assert S.Inv(View(m, m.loop.f.sid));
      S.OrderOf(View(m, m.loop.f.sid));
    } else if m.loop.SpokeDeliver? {
      assert S.Inv(View(m, m.loop.sid)) && View(m, m.loop.sid).spoke.loop.LoopDeliver?;
      PumpMoves(m, m.loop.sid);
    }
  }

  /** Then every single stream is at rest. */
  lemma RestIsQuiet(m: Session, x: Sid)
    requires AtRest(m) && m.recv.HubIdle? && m.wires.back == [] && m.loop.SpokeIdle? && m.wires.down == []
    ensures Quiet(View(m, x))
  {
    forall a: Act | Internal(a) ensures !Enabled(View(m, x), a) {
      match a
      case ByAccept(b) => assert InternalStep(AtAccept(x, b)) && !CanStep(m, AtAccept(x, b));
      case ByUp(b) => assert InternalStep(AtUp(x, b)) && !CanStep(m, AtUp(x, b));
      case ByDn(b) => assert InternalStep(AtDn(x, b)) && !CanStep(m, AtDn(x, b));
      case ByPump(b) => assert InternalStep(AtPump(x, b)) && !CanStep(m, AtPump(x, b));
      case _ =>
    }
  }

  /** In every run: when, on a link that is up, no task can do anything more by itself, every
      stream has settled. What the hub read is at the target and what the target sent is at the
      hub's connection, if those are still there, and each end of file has ended the other side. */
  lemma RestIsDelivered(states: seq<Session>, steps: seq<Step>, i: nat, x: Sid)
    requires Run(states, steps) && i < |states| && states[i].accepted < U64_RANGE
    requires AtRest(states[i]) && !states[i].recv.HubEnded? && !states[i].loop.SpokeEnded?
    requires states[i].wires.hubTx && states[i].wires.spokeTx
    ensures Settled(View(states[i], x))
  {
    RunGood(states, steps, i);
    RunOpened(states, steps, i);
    RecvLoopAtRest(states[i]);
    SessionLoopAtRest(states[i]);
    RestIsQuiet(states[i], x);
    MapsAreExact(states, steps, i, x);
    assert S.Inv(View(states[i], x));
    QuietIsSettled(View(states[i], x));
  }
  // ---- nothing is assumed of the surroundings ----

  /** Whenever a hub task waits for the client, the client may do anything: send any chunk, end,
      fail, take a payload or cut it off anywhere. */
  lemma ClientMayDoAnything(m: Session, x: Sid, c: Bytes, n: nat)
    requires x in m.conns
    ensures m.conns[x].accept.Running? && m.conns[x].up.UpIdle? ==>
      && (0 < |c| <= 32 * 1024 ==> CanStep(m, AtUp(x, Read(c))))
      && CanStep(m, AtUp(x, ReadEof)) && CanStep(m, AtUp(x, ReadFail))
    ensures m.conns[x].dn.DnWrite? ==>
      CanStep(m, AtDn(x, WriteOk)) && (n <= |m.conns[x].dn.chunk| ==> CanStep(m, AtDn(x, WriteFail(n))))
  {
  }

  /** So may the target. */
  lemma TargetMayDoAnything(m: Session, x: Sid, c: Bytes, n: nat)
    requires x in m.targets
    ensures m.targets[x].pump.Dialing? ==> CanStep(m, AtPump(x, DialOk)) && CanStep(m, AtPump(x, DialFail))
    ensures m.targets[x].pump.PumpIdle? ==>
      (0 < |c| <= 32 * 1024 ==> CanStep(m, AtPump(x, PumpRead(c)))) && CanStep(m, AtPump(x, PumpReadEnd))
    ensures m.targets[x].pump.PumpWrite? ==>
      && CanStep(m, AtPump(x, PumpWriteOk))
      && (n <= |m.targets[x].pump.chunk| ==> CanStep(m, AtPump(x, PumpWriteFail(n))))
  {
  }

  /** Connections may come, and the link, the receive loops and the session may end, at any time. */
  lemma LinkMayFail(m: Session)
    ensures CanStep(m, NewConn) && CanStep(m, ForeignConn) && CanStep(m, MarkClosed)
    ensures CanStep(m, AtLink(ClearStreams)) && CanStep(m, AtLink(DropHubTx)) && CanStep(m, AtLink(DropSpokeTx))
    ensures Do(m, MarkClosed) == m.(shared := m.shared.(closed := true))
    ensures var n := Do(m, AtLink(ClearStreams)); n.shared.closed && n.shared.streams == {}
    ensures !Do(m, AtLink(DropHubTx)).wires.hubTx && !Do(m, AtLink(DropSpokeTx)).wires.spokeTx
    ensures m.recv.HubIdle? ==> CanStep(m, RecvStop) && Do(m, RecvStop) == m.(recv := HubEnded)
    ensures m.loop.SpokeIdle? ==> CanStep(m, LoopStop) && Do(m, LoopStop) == m.(loop := SpokeEnded)
  {
  }

  /** Frames of other kinds may be queued at any time, and take their place in the order. */
  lemma OtherFramesQueue(m: Session, f: Frame)
    requires f.kind.Other?
    ensures CanStep(m, HubControl(f)) && CanStep(m, SpokeControl(f))
    ensures Do(m, HubControl(f)).wires.down == if m.wires.hubTx then m.wires.down + [f] else m.wires.down
    ensures Do(m, SpokeControl(f)).wires.back == if m.wires.spokeTx then m.wires.back + [f] else m.wires.back
  {
  }

  /** A receive loop waits on a stream exactly while its 64-payload channel is full and somebody
      is there to empty it. */
  lemma BlocksOnFullChannel(m: Session)
    ensures m.recv.HubDeliver? ==>
      var c := ConnOf(m, m.recv.sid);
      !CanStep(m, AtRecv(RecvPush)) <==> |c.writer| >= 64 && !c.dn.DnGone?
    ensures m.loop.SpokeDeliver? ==>
      var t := TargetOf(m, m.loop.sid);
      !CanStep(m, AtLoop(LoopPush)) <==> |t.inbound| >= 64 && !t.pump.PumpGone?
  {
  }
}
