/** What every run of one stream keeps: frame grammar, prefix faithfulness in both
    directions, lossless drain. */
module StreamProofs {
  import opened Wire
  import opened Stream

  // ---- frame grammar ----

  /** `Data* Close?` */
  predicate DataThenClose(ks: seq<Kind>) {
    ks == [] || (if |ks| == 1 then ks[0].Data? || ks[0].Close? else ks[0].Data? && DataThenClose(ks[1..]))
  }

  /** `(Open Data* Close?)?` */
  predicate OpenDataClose(ks: seq<Kind>) {
    ks == [] || (ks[0].Open? && DataThenClose(ks[1..]))
  }

  predicate EndsWithClose(ks: seq<Kind>) {
    ks != [] && ks[|ks| - 1].Close?
  }

  lemma {:induction false} DataThenCloseAppend(ks: seq<Kind>, k: Kind)
    requires DataThenClose(ks) && !EndsWithClose(ks) && (k.Data? || k.Close?)
    ensures DataThenClose(ks + [k])
  {
    if |ks| > 0 {
      assert (ks + [k])[1..] == ks[1..] + [k];
      DataThenCloseAppend(ks[1..], k);
    }
  }

  // ---- content in flight ----

  /** Frames sent by the hub and not yet acted on by the spoke loop. */
  function DownLeft(loop: LoopPc, down: seq<Kind>): seq<Kind> {
    if loop.LoopGot? then [loop.kind] + down else down
  }

  /** Frames sent by the spoke and not yet acted on by the hub receive loop. */
  function BackLeft(recv: RecvPc, back: seq<Kind>): seq<Kind> {
    if recv.RecvGot? then [recv.kind] + back else back
  }

  /** Bytes past the spoke loop, in the order the target will get them. */
  function AtTarget(s: SpokeEnd, written: Bytes): Bytes {
    written + (if s.pump.PumpWrite? then s.pump.chunk else []) + Flatten(s.inbound)
    + (if s.loop.LoopDeliver? then s.loop.payload else [])
  }

  /** Bytes past the hub receive loop, in the order the hub connection will get them. */
  function AtHub(h: HubEnd, written: Bytes): Bytes {
    written + (if h.dn.DnWrite? then h.dn.chunk else []) + Flatten(h.writer)
    + (if h.recv.RecvDeliver? then h.recv.payload else [])
  }

  predicate PumpAlive(pc: PumpPc) {
    pc.Dialing? || pc.DialFailed? || pc.PumpIdle? || pc.PumpSend? || pc.PumpEof? || pc.PumpWrite?
  }

  predicate PumpDead(pc: PumpPc) {
    pc.PumpLeaving? || pc.PumpGone?
  }

  predicate UpLeft(pc: UpPc) {
    pc.UpLeaving? || pc.UpGone?
  }

  predicate DnAlive(pc: DnPc) {
    pc.DnIdle? || pc.DnWrite?
  }

  // ---- the invariant ----

  /** The hub's own order: nothing happens to the stream before Open is sent, and
      Close is the last thing its upstream task sends. */
  predicate HubOrder(h: HubEnd, read: Bytes, written: Bytes, sent: seq<Kind>) {
    && (h.accept.Running? <==> sent != [])
    && (!h.accept.Running? ==> h.up.UpIdle? && h.dn.DnIdle? && h.writer == [] && read == [] && written == [])
    && (h.accept.Unborn? || h.accept.Allocated? ==> h.entry.NeverIn?)
    && (h.accept.Registered? || h.accept.Counted? || h.accept.OpenFailed? ==>
          h.entry.In? || h.entry == Out(BySessionClose))
    && (h.accept.RolledBack? ==> h.entry.Out?)
    && (h.accept.Running? ==> !h.entry.NeverIn?)
    && OpenDataClose(sent)
    && (EndsWithClose(sent) ==> UpLeft(h.up) && h.up.why.Eof?)
  }

  /** The spoke's order: it acts only on a stream whose Open it has handled, and what
      is left to handle after that is `Data* Close?`. */
  predicate SpokeOrder(s: SpokeEnd, left: seq<Kind>, sent: seq<Kind>) {
    && (s.pump.Unopened? && !s.loop.LoopReject? ==> left == sent)
    && (!s.pump.Unopened? || s.loop.LoopReject? ==>
          sent != [] && DataThenClose(left) && (EndsWithClose(left) ==> EndsWithClose(sent)))
    && (s.loop.LoopReject? ==> s.pump.Unopened?)
    && (s.pump.Unopened? || s.pump.Rejected? ==> !s.inMap && s.inbound == [] && !s.loop.LoopDeliver?)
    && (s.pump.PumpGone? ==> !s.inMap)
  }

  /** The frames the spoke sends, as a function of how far its pump has come. */
  predicate AnswerOrder(pump: PumpPc, read: Bytes, answers: seq<Kind>) {
    && (pump.Unopened? || pump.Dialing? || pump.DialFailed? ==> answers == [])
    && (pump.Unopened? || pump.Rejected? || pump.Dialing? || pump.DialFailed? ==> read == [])
    && DataThenClose(answers)
    && (EndsWithClose(answers) ==>
          pump.Rejected? || (PumpDead(pump) && (pump.why.DialError? || pump.why.TargetEof?)))
    && (EndsWithClose(answers) && answers[|answers| - 1].half ==> PumpDead(pump) && pump.why.TargetEof?)
  }

  predicate BackOrder(left: seq<Kind>, answers: seq<Kind>) {
    && DataThenClose(left)
    && (left != [] ==> answers != [])
    && (EndsWithClose(left) ==> EndsWithClose(answers) && left[|left| - 1] == answers[|answers| - 1])
  }

  /** What the hub has read is what it has sent, plus the chunk in hand. */
  predicate UpFlow(up: UpPc, read: Bytes, sent: seq<Kind>) {
    var held := if up.UpSend? then up.chunk else [];
    && Payload(sent) + held <= read
    && (!(UpLeft(up) && up.why.SendFailed?) ==> Payload(sent) + held == read)
  }

  predicate PumpFlow(pump: PumpPc, read: Bytes, answers: seq<Kind>) {
    var held := if pump.PumpSend? then pump.chunk else [];
    && Payload(answers) + held <= read
    && (!(PumpDead(pump) && pump.why.HubGone?) ==> Payload(answers) + held == read)
  }

  /** Frames to target: nothing is lost while the pump lives, a prefix afterwards. */
  predicate TargetFlow(s: SpokeEnd, written: Bytes, left: seq<Kind>, sent: seq<Kind>) {
    && (s.pump.Unopened? || s.pump.Rejected? ==> written == [])
    && (PumpAlive(s.pump) ==> AtTarget(s, written) + Payload(left) == Payload(sent))
    && (PumpAlive(s.pump) && !s.inMap ==> left == [] && !s.loop.LoopDeliver? && EndsWithClose(sent))
    && (PumpDead(s.pump) ==> written <= Payload(sent))
    && (PumpDead(s.pump) && s.pump.why.HubClosed? ==> written == Payload(sent) && EndsWithClose(sent))
  }

  /** Frames to hub connection, with the same two regimes around the hub's map entry. */
  predicate HubFlow(h: HubEnd, written: Bytes, left: seq<Kind>, answers: seq<Kind>) {
    && written <= Payload(answers)
    && (DnAlive(h.dn) ==> AtHub(h, written) <= Payload(answers))
    && (DnAlive(h.dn) && h.entry.In? ==> AtHub(h, written) + Payload(left) == Payload(answers))
    && (h.recv.RecvEvict? ==> h.dn.DnGone?)
    && (h.recv.RecvDeliver? ==> answers != [])
    && (!DnAlive(h.dn) && h.dn.why.Drained? ==> h.entry.Out?)
    && (h.entry.Out? && h.entry.cause.BySpokeClose? ==> ClosedBySpoke(h, written, left, answers))
  }

  predicate ClosedBySpoke(h: HubEnd, written: Bytes, left: seq<Kind>, answers: seq<Kind>)
    requires h.entry.Out? && h.entry.cause.BySpokeClose?
  {
    && left == []
    && !h.recv.RecvDeliver?
    && EndsWithClose(answers)
    && answers[|answers| - 1].half == h.entry.cause.half
    && (DnAlive(h.dn) ==> AtHub(h, written) == Payload(answers))
    && (!DnAlive(h.dn) && h.dn.why.Drained? ==> written == Payload(answers))
  }

  function Down(p: Pipe): seq<Kind> {
    DownLeft(p.spoke.loop, p.link.down)
  }

  function Back(p: Pipe): seq<Kind> {
    BackLeft(p.hub.recv, p.link.back)
  }

  predicate Order(p: Pipe) {
    && HubOrder(p.hub, p.hist.hubRead, p.hist.hubWritten, p.hist.hubSent)
    && SpokeOrder(p.spoke, Down(p), p.hist.hubSent)
    && AnswerOrder(p.spoke.pump, p.hist.targetRead, p.hist.spokeSent)
    && BackOrder(Back(p), p.hist.spokeSent)
  }

  predicate Flow(p: Pipe) {
    && UpFlow(p.hub.up, p.hist.hubRead, p.hist.hubSent)
    && PumpFlow(p.spoke.pump, p.hist.targetRead, p.hist.spokeSent)
    && TargetFlow(p.spoke, p.hist.targetWritten, Down(p), p.hist.hubSent)
    && HubFlow(p.hub, p.hist.hubWritten, Back(p), p.hist.spokeSent)
  }

  predicate Inv(p: Pipe) {
    Order(p) && Flow(p)
  }

  // ---- preservation, task by task ----

  lemma AcceptKeepsOrder(p: Pipe, a: AcceptAct)
    requires Order(p) && CanAccept(p, a)
    ensures Order(DoAccept(p, a))
  {
  }

  lemma UpKeepsOrder(p: Pipe, a: UpAct)
    requires Order(p) && CanUp(p, a)
    ensures Order(DoUp(p, a))
  {
    if a.SendData? || a.SendClose? {
      UpSendKeepsOrder(p, a);
    }
  }

  lemma UpSendKeepsOrder(p: Pipe, a: UpAct)
    requires Order(p) && CanUp(p, a) && (a.SendData? || a.SendClose?)
    ensures Order(DoUp(p, a))
  {
    if p.link.hubTx {
      var k := if a.SendData? then Data(p.hub.up.chunk) else Close(true);
      var q := DoUp(p, a);
      assert q.hist.hubSent[1..] == p.hist.hubSent[1..] + [k];
      DataThenCloseAppend(p.hist.hubSent[1..], k);
      assert Down(q) == Down(p) + [k];
      if !p.spoke.pump.Unopened? || p.spoke.loop.LoopReject? {
        DataThenCloseAppend(Down(p), k);
      }
    }
  }

  lemma DnKeepsOrder(p: Pipe, a: DnAct)
    requires Order(p) && CanDn(p, a)
    ensures Order(DoDn(p, a))
  {
  }

  lemma RecvKeepsOrder(p: Pipe, a: RecvAct)
    requires Order(p) && CanRecv(p, a)
    requires p.hub.recv.RecvEvict? ==> p.hub.dn.DnGone?
    requires p.hub.recv.RecvDeliver? ==> p.hist.spokeSent != []
    ensures Order(DoRecv(p, a))
  {
  }

  lemma LoopHandleKeepsOrder(p: Pipe, known: bool)
    requires Order(p) && CanLoop(p, LoopHandle(known))
    ensures Order(DoLoop(p, LoopHandle(known)))
  {
    assert Down(p)[0] == p.spoke.loop.kind && Down(p)[1..] == p.link.down;
  }

  lemma LoopRefuseKeepsOrder(p: Pipe)
    requires Order(p) && CanLoop(p, LoopRefuse)
    ensures Order(DoLoop(p, LoopRefuse))
  {
    if p.link.spokeTx {
      assert p.hist.spokeSent == [] && Back(p) == [];
      assert p.hist.spokeSent + [Close(false)] == [Close(false)] == Back(p) + [Close(false)];
    }
  }

  lemma LoopKeepsOrder(p: Pipe, a: LoopAct)
    requires Order(p) && CanLoop(p, a)
    ensures Order(DoLoop(p, a))
  {
    match a
    case LoopTake => assert Down(DoLoop(p, a)) == Down(p);
    case LoopHandle(known) => LoopHandleKeepsOrder(p, known);
    case LoopPush =>
    case LoopRefuse => LoopRefuseKeepsOrder(p);
  }

  lemma PumpSendKeepsOrder(p: Pipe, a: PumpAct)
    requires Order(p) && CanPump(p, a) && (a.PumpSendData? || a.PumpSendEof? || a.SendDialClose?)
    ensures Order(DoPump(p, a))
  {
    if p.link.spokeTx {
      var k := if a.PumpSendData? then Data(p.spoke.pump.chunk) else Close(a.PumpSendEof?);
      DataThenCloseAppend(p.hist.spokeSent, k);
      DataThenCloseAppend(Back(p), k);
      assert Back(DoPump(p, a)) == Back(p) + [k];
    }
  }

  lemma PumpKeepsOrder(p: Pipe, a: PumpAct)
    requires Order(p) && CanPump(p, a)
    ensures Order(DoPump(p, a))
  {
    if a.PumpSendData? || a.PumpSendEof? || a.SendDialClose? {
      PumpSendKeepsOrder(p, a);
    }
  }

  // ---- preservation of the flow equations: bytes only move along the concatenation ----

  /** The four places of a direction, in delivery order. */
  function Line(written: Bytes, held: Bytes, queued: Bytes, next: Bytes): Bytes {
    written + held + queued + next
  }

  lemma TakeMoves(written: Bytes, queue: seq<Bytes>, next: Bytes)
    requires queue != []
    ensures Line(written, queue[0], Flatten(queue[1..]), next) == Line(written, [], Flatten(queue), next)
  {
  }

  lemma WriteMoves(written: Bytes, held: Bytes, queued: Bytes, next: Bytes)
    ensures Line(written + held, [], queued, next) == Line(written, held, queued, next)
  {
  }

  lemma PushMoves(written: Bytes, held: Bytes, queue: seq<Bytes>, next: Bytes)
    ensures Line(written, held, Flatten(queue + [next]), []) == Line(written, held, Flatten(queue), next)
  {
    FlattenAppend(queue, next);
  }

  lemma NextMoves(written: Bytes, held: Bytes, queued: Bytes, left: seq<Kind>)
    requires left != []
    ensures Line(written, held, queued, DataOf(left[0])) + Payload(left[1..])
         == Line(written, held, queued, []) + Payload(left)
  {
  }

  lemma LinePrefix(written: Bytes, held: Bytes, queued: Bytes, next: Bytes, rest: Bytes, n: nat)
    requires n <= |held|
    ensures written <= Line(written, held, queued, next) <= Line(written, held, queued, next) + rest
    ensures written + held[..n] <= Line(written, held, queued, next)
  {
    assert held == held[..n] + held[n..];
    assert Line(written, held, queued, next) == (written + held[..n]) + (held[n..] + queued + next);
  }

  lemma SentMore(sent: seq<Kind>, left: seq<Kind>, at: Bytes, k: Kind)
    requires at + Payload(left) == Payload(sent)
    ensures at + Payload(left + [k]) == Payload(sent + [k])
  {
    PayloadAppend(sent, k);
    PayloadAppend(left, k);
    Reassociate(at, Payload(left), DataOf(k));
  }

  lemma UpKeepsUpFlow(p: Pipe, a: UpAct)
    requires UpFlow(p.hub.up, p.hist.hubRead, p.hist.hubSent) && CanUp(p, a)
    ensures var q := DoUp(p, a); UpFlow(q.hub.up, q.hist.hubRead, q.hist.hubSent)
  {
    if a.SendData? {
      PayloadAppend(p.hist.hubSent, Data(p.hub.up.chunk));
    } else if a.SendClose? {
      PayloadAppend(p.hist.hubSent, Close(true));
    }
  }

  lemma UpKeepsTargetFlow(p: Pipe, a: UpAct)
    requires CanUp(p, a)
    requires EndsWithClose(p.hist.hubSent) ==> UpLeft(p.hub.up)
    requires TargetFlow(p.spoke, p.hist.targetWritten, Down(p), p.hist.hubSent)
    ensures var q := DoUp(p, a); TargetFlow(q.spoke, q.hist.targetWritten, Down(q), q.hist.hubSent)
  {
    if p.link.hubTx && (a.SendData? || a.SendClose?) {
      var k := if a.SendData? then Data(p.hub.up.chunk) else Close(true);
      assert Down(DoUp(p, a)) == Down(p) + [k];
      PayloadAppend(p.hist.hubSent, k);
      if PumpAlive(p.spoke.pump) {
        SentMore(p.hist.hubSent, Down(p), AtTarget(p.spoke, p.hist.targetWritten), k);
      }
    }
  }

  lemma UpKeepsHubFlow(p: Pipe, a: UpAct)
    requires CanUp(p, a) && HubFlow(p.hub, p.hist.hubWritten, Back(p), p.hist.spokeSent)
    ensures var q := DoUp(p, a); HubFlow(q.hub, q.hist.hubWritten, Back(q), q.hist.spokeSent)
  {
    var q := DoUp(p, a);
    assert q.hub == p.hub.(up := q.hub.up, entry := if a.Remove? then Evict(p.hub.entry, ByUpstream) else p.hub.entry);
    UpIsNoMatter(p.hub, q.hub.up, a.Remove?, p.hist.hubWritten, Back(p), p.hist.spokeSent);
  }

  /** The flow to the connection does not depend on the upstream task, which may take the
      entry out of the map. */
  lemma UpIsNoMatter(h: HubEnd, up: UpPc, removes: bool, written: Bytes, left: seq<Kind>, answers: seq<Kind>)
    requires HubFlow(h, written, left, answers)
    ensures HubFlow(h.(up := up, entry := if removes then Evict(h.entry, ByUpstream) else h.entry),
                    written, left, answers)
  {
  }

  lemma LoopKeepsTargetFlow(p: Pipe, a: LoopAct)
    requires CanLoop(p, a)
    requires SpokeOrder(p.spoke, Down(p), p.hist.hubSent)
    requires TargetFlow(p.spoke, p.hist.targetWritten, Down(p), p.hist.hubSent)
    ensures var q := DoLoop(p, a); TargetFlow(q.spoke, q.hist.targetWritten, Down(q), q.hist.hubSent)
  {
    if a.LoopTake? {
      assert Down(DoLoop(p, a)) == Down(p);
    } else if a.LoopPush? {
      LoopPushKeepsTargetFlow(p);
    } else if a.LoopHandle? {
      LoopHandleKeepsTargetFlow(p, a.known);
    }
  }

  lemma LoopPushKeepsTargetFlow(p: Pipe)
    requires CanLoop(p, LoopPush)
    requires SpokeOrder(p.spoke, Down(p), p.hist.hubSent)
    requires TargetFlow(p.spoke, p.hist.targetWritten, Down(p), p.hist.hubSent)
    ensures var q := DoLoop(p, LoopPush); TargetFlow(q.spoke, q.hist.targetWritten, Down(q), q.hist.hubSent)
  {
    var s := p.spoke;
    PushMoves(p.hist.targetWritten, if s.pump.PumpWrite? then s.pump.chunk else [], s.inbound, s.loop.payload);
  }

  lemma LoopHandleKeepsTargetFlow(p: Pipe, known: bool)
    requires CanLoop(p, LoopHandle(known))
    requires SpokeOrder(p.spoke, Down(p), p.hist.hubSent)
    requires TargetFlow(p.spoke, p.hist.targetWritten, Down(p), p.hist.hubSent)
    ensures var q := DoLoop(p, LoopHandle(known)); TargetFlow(q.spoke, q.hist.targetWritten, Down(q), q.hist.hubSent)
  {
    var s := p.spoke;
    assert Down(p)[0] == s.loop.kind && Down(p)[1..] == p.link.down;
    NextMoves(p.hist.targetWritten, if s.pump.PumpWrite? then s.pump.chunk else [], Flatten(s.inbound), Down(p));
  }

  lemma WrittenIsPrefix(s: SpokeEnd, written: Bytes, left: seq<Kind>, sent: seq<Kind>, n: nat)
    requires TargetFlow(s, written, left, sent)
    requires n == 0 || (s.pump.PumpWrite? && n <= |s.pump.chunk|)
    ensures written <= Payload(sent)
    ensures s.pump.PumpWrite? ==> written + s.pump.chunk[..n] <= Payload(sent)
  {
    if PumpAlive(s.pump) {
      LinePrefix(written, if s.pump.PumpWrite? then s.pump.chunk else [], Flatten(s.inbound),
                 if s.loop.LoopDeliver? then s.loop.payload else [], Payload(left), n);
    }
  }

  lemma PumpKeepsTargetFlow(p: Pipe, a: PumpAct)
    requires CanPump(p, a)
    requires TargetFlow(p.spoke, p.hist.targetWritten, Down(p), p.hist.hubSent)
    ensures var q := DoPump(p, a); TargetFlow(q.spoke, q.hist.targetWritten, Down(q), q.hist.hubSent)
  {
    var s := p.spoke;
    var next := if s.loop.LoopDeliver? then s.loop.payload else [];
    if a.PumpTake? {
      TakeMoves(p.hist.targetWritten, s.inbound, next);
    } else if a.PumpWriteOk? {
      WriteMoves(p.hist.targetWritten, s.pump.chunk, Flatten(s.inbound), next);
    } else {
      WrittenIsPrefix(s, p.hist.targetWritten, Down(p), p.hist.hubSent, if a.PumpWriteFail? then a.n else 0);
    }
  }

  lemma PumpKeepsPumpFlow(p: Pipe, a: PumpAct)
    requires CanPump(p, a) && PumpFlow(p.spoke.pump, p.hist.targetRead, p.hist.spokeSent)
    ensures var q := DoPump(p, a); PumpFlow(q.spoke.pump, q.hist.targetRead, q.hist.spokeSent)
  {
    if a.PumpSendData? {
      PayloadAppend(p.hist.spokeSent, Data(p.spoke.pump.chunk));
    } else if a.PumpSendEof? || a.SendDialClose? {
      PayloadAppend(p.hist.spokeSent, Close(a.PumpSendEof?));
    }
  }

  lemma AnswerKeepsHubFlow(p: Pipe, k: Kind)
    requires HubFlow(p.hub, p.hist.hubWritten, Back(p), p.hist.spokeSent)
    requires !EndsWithClose(p.hist.spokeSent)
    ensures var q := SendBack(p, k); HubFlow(q.hub, q.hist.hubWritten, Back(q), q.hist.spokeSent)
  {
    if p.link.spokeTx {
      PayloadAppend(p.hist.spokeSent, k);
      assert Back(SendBack(p, k)) == Back(p) + [k];
      if DnAlive(p.hub.dn) && p.hub.entry.In? {
        SentMore(p.hist.spokeSent, Back(p), AtHub(p.hub, p.hist.hubWritten), k);
      }
    }
  }

  lemma DnKeepsHubFlow(p: Pipe, a: DnAct)
    requires CanDn(p, a)
    requires p.hub.accept.Running? ==> !p.hub.entry.NeverIn?
    requires HubFlow(p.hub, p.hist.hubWritten, Back(p), p.hist.spokeSent)
    ensures var q := DoDn(p, a); HubFlow(q.hub, q.hist.hubWritten, Back(q), q.hist.spokeSent)
  {
    var h := p.hub;
    var next := if h.recv.RecvDeliver? then h.recv.payload else [];
    var held := if h.dn.DnWrite? then h.dn.chunk else [];
    LinePrefix(p.hist.hubWritten, held, Flatten(h.writer), next, [], if a.WriteFail? then a.n else 0);
    if a.Take? {
      TakeMoves(p.hist.hubWritten, h.writer, next);
    } else if a.WriteOk? {
      WriteMoves(p.hist.hubWritten, held, Flatten(h.writer), next);
    }
  }

  lemma RecvKeepsHubFlow(p: Pipe, a: RecvAct)
    requires CanRecv(p, a)
    requires BackOrder(Back(p), p.hist.spokeSent)
    requires HubFlow(p.hub, p.hist.hubWritten, Back(p), p.hist.spokeSent)
    ensures var q := DoRecv(p, a); HubFlow(q.hub, q.hist.hubWritten, Back(q), q.hist.spokeSent)
  {
    var h := p.hub;
    var held := if h.dn.DnWrite? then h.dn.chunk else [];
    if a.RecvTake? {
      assert Back(DoRecv(p, a)) == Back(p);
    } else if a.RecvPush? {
      PushMoves(p.hist.hubWritten, held, h.writer, h.recv.payload);
    } else if a.RecvHandle? {
      assert Back(p)[0] == h.recv.kind && Back(p)[1..] == p.link.back;
      NextMoves(p.hist.hubWritten, held, Flatten(h.writer), Back(p));
    }
  }

  // ---- preservation of the whole invariant ----

  lemma AcceptKeeps(p: Pipe, a: AcceptAct)
    requires Inv(p) && CanAccept(p, a)
    ensures Inv(DoAccept(p, a))
  {
    AcceptKeepsOrder(p, a);
  }

  lemma UpKeeps(p: Pipe, a: UpAct)
    requires Inv(p) && CanUp(p, a)
    ensures Inv(DoUp(p, a))
  {
    UpKeepsOrder(p, a);
    UpKeepsUpFlow(p, a);
    UpKeepsTargetFlow(p, a);
    UpKeepsHubFlow(p, a);
  }

  lemma DnKeeps(p: Pipe, a: DnAct)
    requires Inv(p) && CanDn(p, a)
    ensures Inv(DoDn(p, a))
  {
    DnKeepsOrder(p, a);
    DnKeepsHubFlow(p, a);
  }

  lemma RecvKeeps(p: Pipe, a: RecvAct)
    requires Inv(p) && CanRecv(p, a)
    ensures Inv(DoRecv(p, a))
  {
    RecvKeepsOrder(p, a);
    RecvKeepsHubFlow(p, a);
  }

  lemma LinkKeeps(p: Pipe, a: LinkAct)
    requires Inv(p)
    ensures Inv(DoLink(p, a))
  {
  }

  lemma LoopKeeps(p: Pipe, a: LoopAct)
    requires Inv(p) && CanLoop(p, a)
    ensures Inv(DoLoop(p, a))
  {
    LoopKeepsOrder(p, a);
    LoopKeepsTargetFlow(p, a);
    if a.LoopRefuse? {
      LoopRefuseKeepsBackFlow(p);
    } else {
      LoopLeavesBackFlow(p, a);
    }
  }

  lemma LoopRefuseKeepsBackFlow(p: Pipe)
    requires Inv(p) && CanLoop(p, LoopRefuse)
    ensures var q := DoLoop(p, LoopRefuse);
      && UpFlow(q.hub.up, q.hist.hubRead, q.hist.hubSent)
      && PumpFlow(q.spoke.pump, q.hist.targetRead, q.hist.spokeSent)
      && HubFlow(q.hub, q.hist.hubWritten, Back(q), q.hist.spokeSent)
  {
    AnswerKeepsHubFlow(p, Close(false));
    PayloadAppend(p.hist.spokeSent, Close(false));
  }

  lemma LoopLeavesBackFlow(p: Pipe, a: LoopAct)
    requires Inv(p) && CanLoop(p, a) && !a.LoopRefuse?
    ensures var q := DoLoop(p, a);
      && UpFlow(q.hub.up, q.hist.hubRead, q.hist.hubSent)
      && PumpFlow(q.spoke.pump, q.hist.targetRead, q.hist.spokeSent)
      && HubFlow(q.hub, q.hist.hubWritten, Back(q), q.hist.spokeSent)
  {
    var q := DoLoop(p, a);
    assert q.hub == p.hub && q.hist == p.hist && Back(q) == Back(p);
  }

  lemma PumpKeeps(p: Pipe, a: PumpAct)
    requires Inv(p) && CanPump(p, a)
    ensures Inv(DoPump(p, a))
  {
    PumpKeepsOrder(p, a);
    PumpKeepsTargetFlow(p, a);
    PumpKeepsPumpFlow(p, a);
    if a.PumpSendData? || a.PumpSendEof? || a.SendDialClose? {
      AnswerKeepsHubFlow(p, if a.PumpSendData? then Data(p.spoke.pump.chunk) else Close(a.PumpSendEof?));
    }
  }

  lemma StepKeeps(p: Pipe, a: Act)
    requires Inv(p) && Enabled(p, a)
    ensures Inv(Apply(p, a))
  {
    match a
    case ByAccept(b) => AcceptKeeps(p, b);
    case ByUp(b) => UpKeeps(p, b);
    case ByDn(b) => DnKeeps(p, b);
    case ByRecv(b) => RecvKeeps(p, b);
    case ByLink(b) => LinkKeeps(p, b);
    case ByLoop(b) => LoopKeeps(p, b);
    case ByPump(b) => PumpKeeps(p, b);
  }

  // ---- consequences for one stream ----

  lemma PrefixesOf(p: Pipe)
    requires Inv(p)
    ensures p.hist.targetWritten <= p.hist.hubRead
    ensures p.hist.hubWritten <= p.hist.targetRead
  {
    WrittenIsPrefix(p.spoke, p.hist.targetWritten, Down(p), p.hist.hubSent, 0);
  }

  lemma DrainOf(p: Pipe)
    requires Inv(p)
    ensures PumpDead(p.spoke.pump) && p.spoke.pump.why.HubClosed? ==>
              p.hist.targetWritten == p.hist.hubRead && UpLeft(p.hub.up) && p.hub.up.why.Eof?
    ensures p.hub.entry.Out? && p.hub.entry.cause.BySpokeClose? && !DnAlive(p.hub.dn) && p.hub.dn.why.Drained? ==>
              p.hist.hubWritten == p.hist.targetRead
    ensures p.hub.entry.Out? && p.hub.entry.cause == BySpokeClose(true) ==>
              PumpDead(p.spoke.pump) && p.spoke.pump.why.TargetEof?
  {
  }

  lemma OrderOf(p: Pipe)
    requires Inv(p)
    ensures OpenDataClose(p.hist.hubSent) && DataThenClose(p.hist.spokeSent)
    ensures p.hist.spokeSent != [] ==> p.hist.hubSent != []
    ensures p.spoke.loop.LoopGot? ==> (p.spoke.loop.kind.Open? <==> p.spoke.pump.Unopened?)
    ensures !p.spoke.pump.Unopened? ==> p.hub.accept.Running?
  {
  }

  /** A byte pipe: what went in, and the prefix of it that came out. */
  datatype Channel = Channel(sent: Bytes, got: Bytes)

  function Forward(h: History): Channel {
    Channel(h.hubRead, h.targetWritten)
  }

  function Backward(h: History): Channel {
    Channel(h.targetRead, h.hubWritten)
  }

  /** Its steps: accept more input, or put out more of the input accepted so far. */
  predicate ChannelNext(a: Channel, b: Channel) {
    || (a.sent <= b.sent && a.got == b.got)
    || (a.sent == b.sent && a.got <= b.got <= b.sent)
  }

  lemma StepIsChannelStep(p: Pipe, a: Act)
    requires Inv(p) && Enabled(p, a)
    ensures ChannelNext(Forward(p.hist), Forward(Apply(p, a).hist))
    ensures ChannelNext(Backward(p.hist), Backward(Apply(p, a).hist))
  {
    StepKeeps(p, a);
    PrefixesOf(Apply(p, a));
    HistoryGrows(p, a);
  }

  lemma HistoryGrows(p: Pipe, a: Act)
    requires Enabled(p, a)
    ensures var q := Apply(p, a);
      && p.hist.hubRead <= q.hist.hubRead && p.hist.targetWritten <= q.hist.targetWritten
      && p.hist.targetRead <= q.hist.targetRead && p.hist.hubWritten <= q.hist.hubWritten
      && (p.hist.hubRead == q.hist.hubRead || p.hist.targetWritten == q.hist.targetWritten)
      && (p.hist.targetRead == q.hist.targetRead || p.hist.hubWritten == q.hist.hubWritten)
  {
  }
}
