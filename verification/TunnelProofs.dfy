/** The multiplexed session refines a family of independent streams: seen through
    `View(_, x)`, every step of a session is a step of the stream `x` or nothing. */
module TunnelProofs {
  import opened Wire
  import opened Stream
  import opened Tunnel
  import S = StreamProofs

  // ---- queues ----

  lemma OnlyOfOne(f: Frame, x: Sid)
    ensures Only([f], x) == if Carries(f, x) then [f.kind] else []
  {
    assert [f][1..] == [];
  }

  lemma QueueDownProjects(w: Wires, f: Frame, x: Sid)
    ensures Carries(f, x) && w.hubTx ==>
              Only(QueueDown(w, f).down, x) == Only(w.down, x) + [f.kind]
              && Only(QueueDown(w, f).hubSent, x) == Only(w.hubSent, x) + [f.kind]
    ensures !(Carries(f, x) && w.hubTx) ==>
              Only(QueueDown(w, f).down, x) == Only(w.down, x)
              && Only(QueueDown(w, f).hubSent, x) == Only(w.hubSent, x)
  {
    OnlyOfOne(f, x);
    OnlyAppend(w.down, f, x);
    OnlyAppend(w.hubSent, f, x);
  }

  lemma QueueBackProjects(w: Wires, f: Frame, x: Sid)
    ensures Carries(f, x) && w.spokeTx ==>
              Only(QueueBack(w, f).back, x) == Only(w.back, x) + [f.kind]
              && Only(QueueBack(w, f).spokeSent, x) == Only(w.spokeSent, x) + [f.kind]
    ensures !(Carries(f, x) && w.spokeTx) ==>
              Only(QueueBack(w, f).back, x) == Only(w.back, x)
              && Only(QueueBack(w, f).spokeSent, x) == Only(w.spokeSent, x)
  {
    OnlyOfOne(f, x);
    OnlyAppend(w.back, f, x);
    OnlyAppend(w.spokeSent, f, x);
  }

  // ---- each task's step is the stream's own step, and invisible to the others ----

  lemma AcceptProjects(m: Session, sid: Sid, a: AcceptAct, x: Sid)
    requires CanStep(m, AtAccept(sid, a))
    ensures View(AcceptStep(m, sid, a), x) == if x == sid then DoAccept(View(m, sid), a) else View(m, x)
  {
    if a.SendOpen? {
      QueueDownProjects(m.wires, Frame(sid, Open(a.target)), x);
    }
  }

  lemma UpProjects(m: Session, sid: Sid, a: UpAct, x: Sid)
    requires CanStep(m, AtUp(sid, a))
    ensures View(UpStep(m, sid, a), x) == if x == sid then DoUp(View(m, sid), a) else View(m, x)
  {
    if a.SendData? {
      QueueDownProjects(m.wires, Frame(sid, Data(m.conns[sid].up.chunk)), x);
    } else if a.SendClose? {
      QueueDownProjects(m.wires, Frame(sid, Close(true)), x);
    }
  }

  lemma DnProjects(m: Session, sid: Sid, a: DnAct, x: Sid)
    requires CanStep(m, AtDn(sid, a))
    ensures View(DnStep(m, sid, a), x) == if x == sid then DoDn(View(m, sid), a) else View(m, x)
  {
  }

  predicate RecvConcerns(m: Session, a: RecvAct, x: Sid)
    requires CanRecvStep(m, a)
  {
    match a
    case RecvTake => Carries(m.wires.back[0], x)
    case RecvHandle => Carries(m.recv.f, x)
    case _ => BusyWith(m.recv) == x
  }

  lemma RecvQueueProjects(m: Session, x: Sid)
    requires CanRecvStep(m, RecvTake)
    ensures View(RecvStep(m, RecvTake), x)
         == if RecvConcerns(m, RecvTake, x) then DoRecv(View(m, x), RecvTake) else View(m, x)
    ensures RecvConcerns(m, RecvTake, x) ==> CanRecv(View(m, x), RecvTake)
  {
  }

  lemma RecvHandleProjects(m: Session, x: Sid)
    requires CanRecvStep(m, RecvHandle)
    ensures View(RecvStep(m, RecvHandle), x)
         == if RecvConcerns(m, RecvHandle, x) then DoRecv(View(m, x), RecvHandle) else View(m, x)
  {
    var n := RecvStep(m, RecvHandle);
    RecvAndEntryProject(m, n, x);
    if m.recv.f.kind.Close? {
      RemoveProjects(m.shared, m.recv.f.sid, BySpokeClose(m.recv.f.kind.half), x);
    }
  }

  /** A step of the receive loop that leaves connections and queues alone. */
  lemma RecvAndEntryProject(m: Session, n: Session, x: Sid)
    requires n == m.(recv := n.recv, shared := n.shared)
    ensures View(n, x)
         == View(m, x).(hub := HubOf(m, x).(entry := EntryOf(n.shared, x), recv := RecvOf(n.recv, x)))
  {
  }

  lemma RemoveProjects(h: HubShared, sid: Sid, cause: Remover, x: Sid)
    ensures EntryOf(RemoveStream(h, sid, cause), x)
         == if x == sid then Evict(EntryOf(h, x), cause) else EntryOf(h, x)
  {
  }

  lemma RecvProjects(m: Session, a: RecvAct, x: Sid)
    requires CanRecvStep(m, a)
    ensures RecvConcerns(m, a, x) ==> CanRecv(View(m, x), a)
    ensures View(RecvStep(m, a), x) == if RecvConcerns(m, a, x) then DoRecv(View(m, x), a) else View(m, x)
  {
    match a
    case RecvTake => RecvQueueProjects(m, x);
    case RecvHandle => RecvHandleProjects(m, x);
    case _ =>
  }

  lemma LinkProjects(m: Session, a: LinkAct, x: Sid)
    ensures View(LinkStep(m, a), x) == DoLink(View(m, x), a)
  {
  }

  predicate LoopConcerns(m: Session, a: LoopAct, x: Sid)
    requires CanLoopStep(m, a)
  {
    match a
    case LoopTake => Carries(m.wires.down[0], x)
    case LoopHandle(_) => Carries(m.loop.f, x)
    case _ => SpokeBusyWith(m.loop) == x
  }

  lemma LoopQueueProjects(m: Session, x: Sid)
    requires CanLoopStep(m, LoopTake)
    ensures View(LoopStep(m, LoopTake), x)
         == if LoopConcerns(m, LoopTake, x) then DoLoop(View(m, x), LoopTake) else View(m, x)
    ensures LoopConcerns(m, LoopTake, x) ==> CanLoop(View(m, x), LoopTake)
  {
  }

  lemma LoopRefuseProjects(m: Session, x: Sid)
    requires CanLoopStep(m, LoopRefuse)
    ensures View(LoopStep(m, LoopRefuse), x)
         == if LoopConcerns(m, LoopRefuse, x) then DoLoop(View(m, x), LoopRefuse) else View(m, x)
  {
    QueueBackProjects(m.wires, Frame(m.loop.sid, Close(false)), x);
  }

  lemma LoopHandleProjects(m: Session, known: bool, x: Sid)
    requires CanLoopStep(m, LoopHandle(known))
    ensures View(LoopStep(m, LoopHandle(known)), x)
         == if LoopConcerns(m, LoopHandle(known), x) then DoLoop(View(m, x), LoopHandle(known)) else View(m, x)
  {
    var n := LoopStep(m, LoopHandle(known));
    if m.loop.f.kind.Open? && known {
      LoopOpenProjects(m, x);
    } else {
      LoopAndMapProject(m, n, x);
    }
  }

  /** A step of the session loop that starts no pump and sends nothing. */
  lemma LoopAndMapProject(m: Session, n: Session, x: Sid)
    requires n == m.(loop := n.loop, inMap := n.inMap)
    ensures View(n, x) == View(m, x).(spoke := SpokeOf(m, x).(loop := LoopOf(n.loop, x), inMap := x in n.inMap))
  {
  }

  lemma LoopOpenProjects(m: Session, x: Sid)
    requires CanLoopStep(m, LoopHandle(true)) && m.loop.f.kind.Open?
    ensures View(LoopStep(m, LoopHandle(true)), x)
         == if x == m.loop.f.sid then DoLoop(View(m, x), LoopHandle(true)) else View(m, x)
  {
    var n := LoopStep(m, LoopHandle(true));
    assert HistoryOf(n, x) == HistoryOf(m, x);
  }

  lemma LoopProjects(m: Session, a: LoopAct, x: Sid)
    requires CanLoopStep(m, a)
    ensures LoopConcerns(m, a, x) ==> CanLoop(View(m, x), a)
    ensures View(LoopStep(m, a), x) == if LoopConcerns(m, a, x) then DoLoop(View(m, x), a) else View(m, x)
  {
    match a
    case LoopTake => LoopQueueProjects(m, x);
    case LoopHandle(known) => LoopHandleProjects(m, known, x);
    case LoopRefuse => LoopRefuseProjects(m, x);
    case LoopPush =>
  }

  predicate PumpSends(a: PumpAct) {
    a.PumpSendData? || a.PumpSendEof? || a.SendDialClose?
  }

  lemma PumpSendProjects(m: Session, sid: Sid, a: PumpAct, x: Sid)
    requires CanStep(m, AtPump(sid, a)) && PumpSends(a)
    ensures View(PumpStep(m, sid, a), x) == if x == sid then DoPump(View(m, sid), a) else View(m, x)
  {
    var k := if a.PumpSendData? then Data(m.targets[sid].pump.chunk) else Close(a.PumpSendEof?);
    QueueBackProjects(m.wires, Frame(sid, k), x);
  }

  lemma PumpProjects(m: Session, sid: Sid, a: PumpAct, x: Sid)
    requires CanStep(m, AtPump(sid, a))
    ensures View(PumpStep(m, sid, a), x) == if x == sid then DoPump(View(m, sid), a) else View(m, x)
  {
    if PumpSends(a) {
      PumpSendProjects(m, sid, a, x);
    }
  }

  // ---- the simulation ----

  /** The streams a step concerns: at most one, unless the link or the session ends. */
  predicate Concerns(m: Session, s: Step, x: Sid)
    requires CanStep(m, s)
  {
    match s
    case NewConn => x == NextSid(m.accepted)
    case AtAccept(sid, _) => x == sid
    case AtUp(sid, _) => x == sid
    case AtDn(sid, _) => x == sid
    case AtRecv(a) => RecvConcerns(m, a, x)
    case AtLink(_) => true
    case AtLoop(a) => LoopConcerns(m, a, x)
    case AtPump(sid, _) => x == sid
    case _ => false
  }

  /** The stream-level name of a step that concerns a stream. */
  function ActOf(s: Step): Act {
    match s
    case NewConn => ByAccept(TakeId)
    case AtAccept(_, a) => ByAccept(a)
    case AtUp(_, a) => ByUp(a)
    case AtDn(_, a) => ByDn(a)
    case AtRecv(a) => ByRecv(a)
    case AtLink(a) => ByLink(a)
    case AtLoop(a) => ByLoop(a)
    case AtPump(_, a) => ByPump(a)
    case _ => ByLink(DropHubTx)
  }

  lemma ControlProjects(m: Session, s: Step, x: Sid)
    requires CanStep(m, s) && (s.HubControl? || s.SpokeControl?)
    ensures View(Do(m, s), x) == View(m, x)
  {
    QueueDownProjects(m.wires, s.f, x);
    QueueBackProjects(m.wires, s.f, x);
  }

  predicate HubSide(s: Step) {
    s.NewConn? || s.AtAccept? || s.AtUp? || s.AtDn? || s.AtRecv?
  }

  predicate SpokeSide(s: Step) {
    s.AtLoop? || s.AtPump? || s.AtLink?
  }

  lemma HubSideProjects(m: Session, s: Step, x: Sid)
    requires CanStep(m, s) && HubSide(s)
    requires s.NewConn? ==> NextSid(m.accepted) !in m.conns
    ensures Concerns(m, s, x) ==> Enabled(View(m, x), ActOf(s))
    ensures View(Do(m, s), x) == if Concerns(m, s, x) then Apply(View(m, x), ActOf(s)) else View(m, x)
  {
    match s
    case AtAccept(sid, a) => AcceptProjects(m, sid, a, x);
    case AtUp(sid, a) => UpProjects(m, sid, a, x);
    case AtDn(sid, a) => DnProjects(m, sid, a, x);
    case AtRecv(a) => RecvProjects(m, a, x);
    case NewConn =>
  }

  lemma SpokeSideProjects(m: Session, s: Step, x: Sid)
    requires CanStep(m, s) && SpokeSide(s)
    ensures Concerns(m, s, x) ==> Enabled(View(m, x), ActOf(s))
    ensures View(Do(m, s), x) == if Concerns(m, s, x) then Apply(View(m, x), ActOf(s)) else View(m, x)
  {
    match s
    case AtLink(a) => LinkProjects(m, a, x);
    case AtLoop(a) => LoopProjects(m, a, x);
    case AtPump(sid, a) => PumpProjects(m, sid, a, x);
  }

  lemma OtherProjects(m: Session, s: Step, x: Sid)
    requires CanStep(m, s) && !HubSide(s) && !SpokeSide(s)
    ensures !Concerns(m, s, x) && View(Do(m, s), x) == View(m, x)
  {
    if s.HubControl? || s.SpokeControl? {
      ControlProjects(m, s, x);
    }
  }

  /** Every step of the session, seen on stream `x`, is a step of `x` alone or nothing. */
  lemma StepProjects(m: Session, s: Step, x: Sid)
    requires CanStep(m, s)
    requires s.NewConn? ==> NextSid(m.accepted) !in m.conns
    ensures Concerns(m, s, x) ==> Enabled(View(m, x), ActOf(s))
    ensures View(Do(m, s), x) == if Concerns(m, s, x) then Apply(View(m, x), ActOf(s)) else View(m, x)
  {
    if HubSide(s) {
      HubSideProjects(m, s, x);
    } else if SpokeSide(s) {
      SpokeSideProjects(m, s, x);
    } else {
      OtherProjects(m, s, x);
    }
  }
}
