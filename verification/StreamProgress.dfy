/** What a stream has come to when no task can do anything more by itself: everything read at
    one end is written at the other, and every Close has been acted on. */
module StreamProgress {
  import opened Wire
  import opened Stream
  import opened StreamProofs

  // ---- the maps, exactly ----

  /** A Close was sent, and of the frames still to be handled none is it. */
  predicate CloseHandled(left: seq<Kind>, sent: seq<Kind>) {
    EndsWithClose(sent) && !EndsWithClose(left)
  }

  /** The spoke's map holds the stream exactly from the Open until the pump leaves or the hub's
      Close is handled. */
  predicate SpokeMapExact(s: SpokeEnd, left: seq<Kind>, sent: seq<Kind>) {
    s.inMap <==> !s.pump.Unopened? && !s.pump.Rejected? && !s.pump.PumpGone? && !CloseHandled(left, sent)
  }

  /** The hub's map holds it from the registration until one of five causes, each of which can
      be told from what the tasks have done. */
  predicate HubMapExact(h: HubEnd, left: seq<Kind>, answers: seq<Kind>) {
    && (h.entry.NeverIn? <==> h.accept.Unborn? || h.accept.Allocated?)
    && (h.entry.In? ==> !h.accept.RolledBack? && !h.up.UpGone? && !CloseHandled(left, answers))
    && (h.entry.Out? ==>
          match h.entry.cause
          case ByUpstream => h.up.UpGone?
          case BySpokeClose(half) => CloseHandled(left, answers) && answers[|answers| - 1] == Close(half)
          case ByEvict => h.dn == DnGone(WriteError)
          case ByRollBack => h.accept.RolledBack?
          case BySessionClose => true)
  }

  /** The hub's upstream task announced the end of file if it still could, and gave up sending
      only when it no longer could. */
  predicate UpAnnounced(up: UpPc, hubTx: bool, sent: seq<Kind>) {
    && (UpLeft(up) && up.why.Eof? && hubTx ==> EndsWithClose(sent))
    && (UpLeft(up) && up.why.SendFailed? ==> !hubTx)
  }

  /** So did the spoke's pump, and the loop that refused a target. */
  predicate PumpAnnounced(pump: PumpPc, spokeTx: bool, answers: seq<Kind>) {
    && (pump.Rejected? || (PumpDead(pump) && (pump.why.TargetEof? || pump.why.DialError?)) ==>
          spokeTx ==> EndsWithClose(answers))
    && (PumpDead(pump) && pump.why.HubGone? ==> !spokeTx)
  }

  predicate Exact(p: Pipe) {
    && SpokeMapExact(p.spoke, Down(p), p.hist.hubSent)
    && HubMapExact(p.hub, Back(p), p.hist.spokeSent)
    && UpAnnounced(p.hub.up, p.link.hubTx, p.hist.hubSent)
    && PumpAnnounced(p.spoke.pump, p.link.spokeTx, p.hist.spokeSent)
  }

  lemma StartExact(hubTx: bool, spokeTx: bool)
    ensures Exact(Start(hubTx, spokeTx))
  {
  }

  // ---- preservation ----

  /** One more frame to handle does not make an unhandled Close handled. */
  lemma SentMoreToHandle(left: seq<Kind>, sent: seq<Kind>, k: Kind)
    requires !EndsWithClose(sent)
    ensures !CloseHandled(left + [k], sent + [k]) && !CloseHandled(left, sent)
    ensures EndsWithClose(sent + [k]) <==> k.Close?
  {
  }

  lemma AcceptExact(p: Pipe, a: AcceptAct)
    requires Order(p) && Exact(p) && CanAccept(p, a)
    ensures Exact(DoAccept(p, a))
  {
    if a.SendOpen? && p.link.hubTx {
      assert Down(DoAccept(p, a)) == Down(p) + [Open(a.target)];
      SentMoreToHandle(Down(p), p.hist.hubSent, Open(a.target));
    }
  }

  lemma UpSendExact(p: Pipe, a: UpAct)
    requires Order(p) && Exact(p) && CanUp(p, a) && (a.SendData? || a.SendClose?)
    ensures Exact(DoUp(p, a))
  {
    if p.link.hubTx {
      var k := if a.SendData? then Data(p.hub.up.chunk) else Close(true);
      assert Down(DoUp(p, a)) == Down(p) + [k];
      SentMoreToHandle(Down(p), p.hist.hubSent, k);
    }
  }

  lemma UpExact(p: Pipe, a: UpAct)
    requires Order(p) && Exact(p) && CanUp(p, a)
    ensures Exact(DoUp(p, a))
  {
    if a.SendData? || a.SendClose? {
      UpSendExact(p, a);
    }
  }

  lemma DnExact(p: Pipe, a: DnAct)
    requires Exact(p) && CanDn(p, a)
    ensures Exact(DoDn(p, a))
  {
  }

  /** Handling the first of the frames left. */
  lemma HandledOne(k: Kind, rest: seq<Kind>, sent: seq<Kind>)
    requires DataThenClose([k] + rest) && (EndsWithClose([k] + rest) ==> EndsWithClose(sent))
    ensures k.Close? ==> rest == [] && CloseHandled(rest, sent)
    ensures !k.Close? ==> (CloseHandled(rest, sent) <==> CloseHandled([k] + rest, sent))
  {
    assert ([k] + rest)[0] == k && ([k] + rest)[1..] == rest;
  }

  lemma RecvHandleExact(p: Pipe)
    requires BackOrder(Back(p), p.hist.spokeSent) && Exact(p) && CanRecv(p, RecvHandle)
    ensures Exact(DoRecv(p, RecvHandle))
  {
    HandledOne(p.hub.recv.kind, p.link.back, p.hist.spokeSent);
    assert Back(p) == [p.hub.recv.kind] + p.link.back;
  }

  lemma RecvExact(p: Pipe, a: RecvAct)
    requires Exact(p) && CanRecv(p, a) && BackOrder(Back(p), p.hist.spokeSent)
    requires p.hub.recv.RecvEvict? && p.hub.entry.In? ==> p.hub.dn == DnGone(WriteError)
    ensures Exact(DoRecv(p, a))
  {
    if a.RecvTake? {
      assert Back(DoRecv(p, a)) == Back(p);
    } else if a.RecvHandle? {
      RecvHandleExact(p);
    }
  }

  lemma LinkExact(p: Pipe, a: LinkAct)
    requires Order(p) && Exact(p)
    ensures Exact(DoLink(p, a))
  {
  }

  lemma LoopOpenExact(p: Pipe, known: bool)
    requires Order(p) && Exact(p) && CanLoop(p, LoopHandle(known)) && p.spoke.loop.kind.Open?
    ensures Exact(DoLoop(p, LoopHandle(known)))
  {
    var q := DoLoop(p, LoopHandle(known));
    assert Down(p) == [p.spoke.loop.kind] + Down(q) == p.hist.hubSent;
    assert p.hist.hubSent[1..] == Down(q);
    assert |p.hist.hubSent| > 1 ==> p.hist.hubSent[|p.hist.hubSent| - 1] == Down(q)[|Down(q)| - 1];
  }

  lemma LoopHandleExact(p: Pipe, known: bool)
    requires Order(p) && Exact(p) && CanLoop(p, LoopHandle(known)) && !p.spoke.loop.kind.Open?
    ensures Exact(DoLoop(p, LoopHandle(known)))
  {
    var q := DoLoop(p, LoopHandle(known));
    assert Down(p) == [p.spoke.loop.kind] + Down(q);
    LoopPastOpen(p);
    HandledOne(p.spoke.loop.kind, Down(q), p.hist.hubSent);
  }

  lemma LoopPastOpen(p: Pipe)
    requires Order(p) && p.spoke.loop.LoopGot? && !p.spoke.loop.kind.Open?
    ensures DataThenClose(Down(p)) && (EndsWithClose(Down(p)) ==> EndsWithClose(p.hist.hubSent))
  {
  }

  lemma LoopRefuseExact(p: Pipe)
    requires Order(p) && Exact(p) && CanLoop(p, LoopRefuse)
    ensures Exact(DoLoop(p, LoopRefuse))
  {
    if p.link.spokeTx {
      assert p.hist.spokeSent == [] && Back(p) == [];
      assert Back(DoLoop(p, LoopRefuse)) == Back(p) + [Close(false)];
      SentMoreToHandle(Back(p), p.hist.spokeSent, Close(false));
    }
  }

  lemma LoopExact(p: Pipe, a: LoopAct)
    requires Order(p) && Exact(p) && CanLoop(p, a)
    ensures Exact(DoLoop(p, a))
  {
    match a
    case LoopTake => assert Down(DoLoop(p, a)) == Down(p);
    case LoopHandle(known) =>
      if p.spoke.loop.kind.Open? {
        LoopOpenExact(p, known);
      } else {
        LoopHandleExact(p, known);
      }
    case LoopPush =>
    case LoopRefuse => LoopRefuseExact(p);
  }

  lemma PumpSendExact(p: Pipe, a: PumpAct)
    requires Order(p) && Exact(p) && CanPump(p, a) && (a.PumpSendData? || a.PumpSendEof? || a.SendDialClose?)
    ensures Exact(DoPump(p, a))
  {
    if p.link.spokeTx {
      var k := if a.PumpSendData? then Data(p.spoke.pump.chunk) else Close(a.PumpSendEof?);
      assert Back(DoPump(p, a)) == Back(p) + [k];
      SentMoreToHandle(Back(p), p.hist.spokeSent, k);
    }
  }

  lemma PumpExact(p: Pipe, a: PumpAct)
    requires Order(p) && Exact(p) && CanPump(p, a)
    ensures Exact(DoPump(p, a))
  {
    if a.PumpSendData? || a.PumpSendEof? || a.SendDialClose? {
      PumpSendExact(p, a);
    }
  }

  lemma StepExact(p: Pipe, a: Act)
    requires Inv(p) && Exact(p) && Enabled(p, a)
    ensures Exact(Apply(p, a))
  {
    match a
    case ByAccept(b) => AcceptExact(p, b);
    case ByUp(b) => UpExact(p, b);
    case ByDn(b) => DnExact(p, b);
    case ByRecv(b) => RecvExact(p, b);
    case ByLink(b) => LinkExact(p, b);
    case ByLoop(b) => LoopExact(p, b);
    case ByPump(b) => PumpExact(p, b);
  }

  // ---- at rest ----

  /** What a task does by itself, as long as the TCP peers dial, take bytes and do not fail:
      everything but reads, failures, and the loss of the link. */
  predicate Internal(a: Act) {
    match a
    case ByAccept(b) => !b.TakeId?
    case ByUp(b) => b.SendData? || b.SendClose? || b.Remove?
    case ByDn(b) => !b.WriteFail?
    case ByRecv(_) => true
    case ByLink(_) => false
    case ByLoop(_) => true
    case ByPump(b) => !b.DialFail? && !b.PumpRead? && !b.PumpReadEnd? && !b.PumpWriteFail?
  }

  /** No task can do anything more by itself. */
  ghost predicate Quiet(p: Pipe) {
    forall a: Act :: Internal(a) ==> !Enabled(p, a)
  }

  lemma AcceptAtRest(p: Pipe)
    requires Quiet(p)
    ensures p.hub.accept.Unborn? || p.hub.accept.RolledBack? || p.hub.accept.Running?
    ensures p.hub.up.UpIdle? || p.hub.up.UpGone?
  {
    assert !Enabled(p, ByAccept(Register)) && !Enabled(p, ByAccept(Count)) && !Enabled(p, ByAccept(SendOpen("")));
    assert !Enabled(p, ByAccept(RollBack));
    assert !Enabled(p, ByUp(SendData)) && !Enabled(p, ByUp(SendClose)) && !Enabled(p, ByUp(Remove));
  }

  lemma DnAtRest(p: Pipe)
    requires HubOrder(p.hub, p.hist.hubRead, p.hist.hubWritten, p.hist.hubSent) && Quiet(p)
    ensures p.hub.dn.DnIdle? || p.hub.dn.DnGone?
    ensures p.hub.accept.Running? && p.hub.dn.DnIdle? ==> p.hub.writer == []
    ensures p.hub.writer != [] ==> p.hub.dn.DnGone?
  {
    assert !Enabled(p, ByDn(Take)) && !Enabled(p, ByDn(WriteOk)) && !Enabled(p, ByDn(Exit));
  }

  lemma RecvAtRest(p: Pipe)
    requires HubOrder(p.hub, p.hist.hubRead, p.hist.hubWritten, p.hist.hubSent) && Quiet(p)
    ensures p.hub.recv.RecvIdle? && p.link.back == []
    ensures p.hub.accept.Running? && p.hub.dn.DnIdle? ==> p.hub.entry.In?
  {
    DnAtRest(p);
    assert !Enabled(p, ByRecv(RecvTake)) && !Enabled(p, ByRecv(RecvHandle));
    assert !Enabled(p, ByRecv(RecvPush)) && !Enabled(p, ByRecv(RecvRemove)) && !Enabled(p, ByDn(End));
  }

  lemma PumpAtRest(p: Pipe)
    requires Quiet(p)
    ensures p.spoke.pump.Unopened? || p.spoke.pump.Rejected? || p.spoke.pump.PumpIdle? || p.spoke.pump.PumpGone?
    ensures p.spoke.pump.PumpIdle? ==> p.spoke.inbound == []
  {
    assert !Enabled(p, ByPump(DialOk)) && !Enabled(p, ByPump(SendDialClose)) && !Enabled(p, ByPump(PumpSendData));
    assert !Enabled(p, ByPump(PumpSendEof)) && !Enabled(p, ByPump(PumpTake)) && !Enabled(p, ByPump(PumpWriteOk));
    assert !Enabled(p, ByPump(PumpRemove));
  }

  lemma LoopAtRest(p: Pipe)
    requires Inv(p) && Quiet(p)
    ensures p.spoke.loop.LoopIdle? && p.link.down == []
    ensures p.spoke.pump.PumpIdle? ==> p.spoke.inMap
  {
    OrderOf(p);
    PumpAtRest(p);
    assert !Enabled(p, ByLoop(LoopTake)) && !Enabled(p, ByLoop(LoopHandle(true)));
    assert !Enabled(p, ByLoop(LoopPush)) && !Enabled(p, ByLoop(LoopRefuse)) && !Enabled(p, ByPump(PumpNone));
  }

  /** On a link that is up, a stream at rest has delivered everything in both directions to
      every end that is still there, and every end of file has ended the other side. */
  predicate Settled(p: Pipe) {
    && (p.hub.accept.Running? ==> !p.spoke.pump.Unopened?)
    && (p.spoke.pump.PumpIdle? ==> p.hist.targetWritten == p.hist.hubRead)
    && (p.hub.up.UpGone? && p.hub.up.why.Eof? ==> p.spoke.pump.Rejected? || p.spoke.pump.PumpGone?)
    && (p.hub.accept.Running? && p.hub.dn.DnIdle? ==> p.hist.hubWritten == p.hist.targetRead)
    && (p.spoke.pump.Rejected?
        || (p.spoke.pump.PumpGone? && (p.spoke.pump.why.TargetEof? || p.spoke.pump.why.DialError?))
        ==> !p.hub.entry.In? && (p.hub.accept.Running? ==> p.hub.dn.DnGone?))
  }

  lemma QuietIsSettled(p: Pipe)
    requires Inv(p) && Exact(p) && Quiet(p) && p.link.hubTx && p.link.spokeTx
    ensures Settled(p)
  {
    AcceptAtRest(p);
    DnAtRest(p);
    RecvAtRest(p);
    PumpAtRest(p);
    LoopAtRest(p);
    assert Flatten([]) == [] && Payload([]) == [];
  }
}
