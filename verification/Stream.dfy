/** One virtual TCP stream of one session, as a transition system.

    The hub runs three tasks for a stream (the accept step, an upstream pump and
    a downstream pump) beside its receive loop; the spoke runs one pump beside its
    session loop. Every await point of those tasks is a program point here, so a
    run is an arbitrary interleaving of the atomic steps between them. */
module Stream {
  import opened Wire

  /** The accept step: id taken, entry inserted, gauge incremented, Open sent. */
  datatype AcceptPc = Unborn | Allocated | Registered | Counted | OpenFailed | RolledBack | Running

  datatype UpExit = Eof | ReadError | SendFailed

  /** Hub upstream task: TCP connection to Data frames. */
  datatype UpPc = UpIdle | UpSend(chunk: Bytes) | UpEof | UpLeaving(why: UpExit) | UpGone(why: UpExit)

  datatype DnExit = Drained | WriteError

  /** Hub downstream task: writer channel to TCP connection. */
  datatype DnPc = DnIdle | DnWrite(chunk: Bytes) | DnClosing(why: DnExit) | DnGone(why: DnExit)

  /** The hub receive loop, as far as it concerns this stream. */
  datatype RecvPc = RecvIdle | RecvGot(kind: Kind) | RecvDeliver(payload: Bytes) | RecvEvict

  /** The spoke session loop, as far as it concerns this stream. */
  datatype LoopPc = LoopIdle | LoopGot(kind: Kind) | LoopDeliver(payload: Bytes) | LoopReject

  datatype PumpExit = DialError | TargetEof | HubGone | TargetWriteError | HubClosed

  /** The spoke pump. `Rejected` is a stream whose target name was unknown. */
  datatype PumpPc =
    | Unopened | Rejected | Dialing | DialFailed
    | PumpIdle | PumpSend(chunk: Bytes) | PumpEof | PumpWrite(chunk: Bytes)
    | PumpLeaving(why: PumpExit) | PumpGone(why: PumpExit)

  datatype Remover = ByUpstream | BySpokeClose(half: bool) | ByEvict | ByRollBack | BySessionClose

  /** The stream's entry in the hub's `streams` map. */
  datatype Entry = NeverIn | In | Out(cause: Remover)

  datatype HubEnd = HubEnd(
    accept: AcceptPc, up: UpPc, dn: DnPc, writer: seq<Bytes>, entry: Entry, recv: RecvPc)

  datatype SpokeEnd = SpokeEnd(loop: LoopPc, pump: PumpPc, inbound: seq<Bytes>, inMap: bool)

  /** Frames of this stream in flight each way, and whether sends still succeed. */
  datatype Link = Link(down: seq<Kind>, hubTx: bool, back: seq<Kind>, spokeTx: bool)

  /** Bytes read from and written to both TCP connections, and every frame sent. */
  datatype History = History(
    hubRead: Bytes, hubWritten: Bytes, targetRead: Bytes, targetWritten: Bytes,
    hubSent: seq<Kind>, spokeSent: seq<Kind>)

  datatype Pipe = Pipe(hub: HubEnd, link: Link, spoke: SpokeEnd, hist: History)

  function Start(hubTx: bool, spokeTx: bool): Pipe {
    Pipe(HubEnd(Unborn, UpIdle, DnIdle, [], NeverIn, RecvIdle), Link([], hubTx, [], spokeTx),
         SpokeEnd(LoopIdle, Unopened, [], false), History([], [], [], [], [], []))
  }

  /** The atomic steps of each task. */
  datatype AcceptAct = TakeId | Register | Count | SendOpen(target: string) | RollBack

  datatype UpAct = Read(chunk: Bytes) | ReadEof | ReadFail | SendData | SendClose | Remove

  datatype DnAct = Take | WriteOk | WriteFail(n: nat) | End | Exit

  datatype RecvAct = RecvTake | RecvHandle | RecvPush | RecvRemove

  datatype LinkAct = ClearStreams | DropHubTx | DropSpokeTx

  datatype LoopAct = LoopTake | LoopHandle(known: bool) | LoopPush | LoopRefuse

  datatype PumpAct =
    | DialOk | DialFail | SendDialClose
    | PumpRead(chunk: Bytes) | PumpReadEnd | PumpSendData | PumpSendEof
    | PumpTake | PumpWriteOk | PumpWriteFail(n: nat) | PumpNone | PumpRemove

  datatype Act =
    | ByAccept(accept: AcceptAct) | ByUp(up: UpAct) | ByDn(dn: DnAct) | ByRecv(recv: RecvAct)
    | ByLink(link: LinkAct) | ByLoop(loop: LoopAct) | ByPump(pump: PumpAct)

  function Evict(e: Entry, cause: Remover): Entry {
    if e.In? then Out(cause) else e
  }

  /** A send succeeds exactly while the receiving end of the queue exists. */
  function SendDown(p: Pipe, k: Kind): Pipe {
    if p.link.hubTx
    then p.(link := p.link.(down := p.link.down + [k]), hist := p.hist.(hubSent := p.hist.hubSent + [k]))
    else p
  }

  function SendBack(p: Pipe, k: Kind): Pipe {
    if p.link.spokeTx
    then p.(link := p.link.(back := p.link.back + [k]), hist := p.hist.(spokeSent := p.hist.spokeSent + [k]))
    else p
  }

  predicate IsChunk(c: Bytes) {
    0 < |c| <= READ_BUFFER
  }

  predicate CanAccept(p: Pipe, a: AcceptAct) {
    match a
    case TakeId => p.hub.accept.Unborn?
    case Register => p.hub.accept.Allocated?
    case Count => p.hub.accept.Registered?
    case SendOpen(_) => p.hub.accept.Counted?
    case RollBack => p.hub.accept.OpenFailed?
  }

  function DoAccept(p: Pipe, a: AcceptAct): Pipe {
    match a
    case TakeId => p.(hub := p.hub.(accept := Allocated))
    case Register => p.(hub := p.hub.(accept := Registered, entry := In))
    case Count => p.(hub := p.hub.(accept := Counted))
    case SendOpen(t) =>
      if p.link.hubTx then SendDown(p, Open(t)).(hub := p.hub.(accept := Running))
      else p.(hub := p.hub.(accept := OpenFailed))
    case RollBack => p.(hub := p.hub.(accept := RolledBack, entry := Evict(p.hub.entry, ByRollBack)))
  }

  predicate CanUp(p: Pipe, a: UpAct) {
    match a
    case Read(c) => p.hub.accept.Running? && p.hub.up.UpIdle? && IsChunk(c)
    case ReadEof => p.hub.accept.Running? && p.hub.up.UpIdle?
    case ReadFail => p.hub.accept.Running? && p.hub.up.UpIdle?
    case SendData => p.hub.up.UpSend?
    case SendClose => p.hub.up.UpEof?
    case Remove => p.hub.up.UpLeaving?
  }

  function DoUp(p: Pipe, a: UpAct): Pipe
    requires CanUp(p, a)
  {
    match a
    case Read(c) => p.(hub := p.hub.(up := UpSend(c)), hist := p.hist.(hubRead := p.hist.hubRead + c))
    case ReadEof => p.(hub := p.hub.(up := UpEof))
    case ReadFail => p.(hub := p.hub.(up := UpLeaving(ReadError)))
    case SendData =>
      if p.link.hubTx then SendDown(p, Data(p.hub.up.chunk)).(hub := p.hub.(up := UpIdle))
      else p.(hub := p.hub.(up := UpLeaving(SendFailed)))
    case SendClose => SendDown(p, Close(true)).(hub := p.hub.(up := UpLeaving(Eof)))
    case Remove => p.(hub := p.hub.(up := UpGone(p.hub.up.why), entry := Evict(p.hub.entry, ByUpstream)))
  }

  /** `End`: a channel yields None once it is empty and its last sender is dropped. */
  predicate CanDn(p: Pipe, a: DnAct) {
    match a
    case Take => p.hub.accept.Running? && p.hub.dn.DnIdle? && p.hub.writer != []
    case WriteOk => p.hub.dn.DnWrite?
    case WriteFail(n) => p.hub.dn.DnWrite? && n <= |p.hub.dn.chunk|
    case End => p.hub.accept.Running? && p.hub.dn.DnIdle? && p.hub.writer == []
                && !p.hub.entry.In? && !p.hub.recv.RecvDeliver?
    case Exit => p.hub.dn.DnClosing?
  }

  /** A failing write may still have put a first part of the chunk on the wire. */
  function DoDn(p: Pipe, a: DnAct): Pipe
    requires CanDn(p, a)
  {
    match a
    case Take => p.(hub := p.hub.(dn := DnWrite(p.hub.writer[0]), writer := p.hub.writer[1..]))
    case WriteOk => p.(hub := p.hub.(dn := DnIdle), hist := p.hist.(hubWritten := p.hist.hubWritten + p.hub.dn.chunk))
    case WriteFail(n) =>
      p.(hub := p.hub.(dn := DnClosing(WriteError)),
         hist := p.hist.(hubWritten := p.hist.hubWritten + p.hub.dn.chunk[..n]))
    case End => p.(hub := p.hub.(dn := DnClosing(Drained)))
    case Exit => p.(hub := p.hub.(dn := DnGone(p.hub.dn.why)))
  }

  predicate CanRecv(p: Pipe, a: RecvAct) {
    match a
    case RecvTake => p.hub.recv.RecvIdle? && p.link.back != []
    case RecvHandle => p.hub.recv.RecvGot?
    case RecvPush => p.hub.recv.RecvDeliver? && (p.hub.dn.DnGone? || |p.hub.writer| < STREAM_CHANNEL)
    case RecvRemove => p.hub.recv.RecvEvict?
  }

  function DoRecv(p: Pipe, a: RecvAct): Pipe
    requires CanRecv(p, a)
  {
    match a
    case RecvTake => p.(hub := p.hub.(recv := RecvGot(p.link.back[0])), link := p.link.(back := p.link.back[1..]))
    case RecvHandle =>
      (match p.hub.recv.kind
       case Data(d) => p.(hub := p.hub.(recv := if p.hub.entry.In? then RecvDeliver(d) else RecvIdle))
       case Close(h) => p.(hub := p.hub.(recv := RecvIdle, entry := Evict(p.hub.entry, BySpokeClose(h))))
       case _ => p.(hub := p.hub.(recv := RecvIdle)))
    case RecvPush =>
      if p.hub.dn.DnGone? then p.(hub := p.hub.(recv := RecvEvict))
      else p.(hub := p.hub.(recv := RecvIdle, writer := p.hub.writer + [p.hub.recv.payload]))
    case RecvRemove => p.(hub := p.hub.(recv := RecvIdle, entry := Evict(p.hub.entry, ByEvict)))
  }

  /** Session teardown on the hub, and the two ways the link can fail. */
  function DoLink(p: Pipe, a: LinkAct): Pipe {
    match a
    case ClearStreams => p.(hub := p.hub.(entry := Evict(p.hub.entry, BySessionClose)))
    case DropHubTx => p.(link := p.link.(hubTx := false))
    case DropSpokeTx => p.(link := p.link.(spokeTx := false))
  }

  predicate CanLoop(p: Pipe, a: LoopAct) {
    match a
    case LoopTake => p.spoke.loop.LoopIdle? && p.link.down != []
    case LoopHandle(_) => p.spoke.loop.LoopGot? && (p.spoke.loop.kind.Open? ==> p.spoke.pump.Unopened?)
    case LoopPush => p.spoke.loop.LoopDeliver? && (p.spoke.pump.PumpGone? || |p.spoke.inbound| < STREAM_CHANNEL)
    case LoopRefuse => p.spoke.loop.LoopReject?
  }

  /** `known` says whether the target name of an Open is in the spoke's table. */
  function DoLoop(p: Pipe, a: LoopAct): Pipe
    requires CanLoop(p, a)
  {
    match a
    case LoopTake => p.(spoke := p.spoke.(loop := LoopGot(p.link.down[0])), link := p.link.(down := p.link.down[1..]))
    case LoopHandle(known) =>
      (match p.spoke.loop.kind
       case Open(_) =>
         if known then p.(spoke := p.spoke.(loop := LoopIdle, pump := Dialing, inMap := true))
         else p.(spoke := p.spoke.(loop := LoopReject))
       case Data(d) => p.(spoke := p.spoke.(loop := if p.spoke.inMap then LoopDeliver(d) else LoopIdle))
       case Close(_) => p.(spoke := p.spoke.(loop := LoopIdle, inMap := false))
       case Other => p.(spoke := p.spoke.(loop := LoopIdle)))
    case LoopPush =>
      if p.spoke.pump.PumpGone? then p.(spoke := p.spoke.(loop := LoopIdle))
      else p.(spoke := p.spoke.(loop := LoopIdle, inbound := p.spoke.inbound + [p.spoke.loop.payload]))
    case LoopRefuse => SendBack(p, Close(false)).(spoke := p.spoke.(loop := LoopIdle, pump := Rejected))
  }

  predicate CanPump(p: Pipe, a: PumpAct) {
    match a
    case DialOk => p.spoke.pump.Dialing?
    case DialFail => p.spoke.pump.Dialing?
    case SendDialClose => p.spoke.pump.DialFailed?
    case PumpRead(c) => p.spoke.pump.PumpIdle? && IsChunk(c)
    case PumpReadEnd => p.spoke.pump.PumpIdle?
    case PumpSendData => p.spoke.pump.PumpSend?
    case PumpSendEof => p.spoke.pump.PumpEof?
    case PumpTake => p.spoke.pump.PumpIdle? && p.spoke.inbound != []
    case PumpWriteOk => p.spoke.pump.PumpWrite?
    case PumpWriteFail(n) => p.spoke.pump.PumpWrite? && n <= |p.spoke.pump.chunk|
    case PumpNone => p.spoke.pump.PumpIdle? && p.spoke.inbound == [] && !p.spoke.inMap && !p.spoke.loop.LoopDeliver?
    case PumpRemove => p.spoke.pump.PumpLeaving?
  }

  function DoPump(p: Pipe, a: PumpAct): Pipe
    requires CanPump(p, a)
  {
    match a
    case DialOk => p.(spoke := p.spoke.(pump := PumpIdle))
    case DialFail => p.(spoke := p.spoke.(pump := DialFailed))
    case SendDialClose => SendBack(p, Close(false)).(spoke := p.spoke.(pump := PumpLeaving(DialError)))
    case PumpRead(c) => p.(spoke := p.spoke.(pump := PumpSend(c)), hist := p.hist.(targetRead := p.hist.targetRead + c))
    case PumpReadEnd => p.(spoke := p.spoke.(pump := PumpEof))
    case PumpSendData =>
      if p.link.spokeTx then SendBack(p, Data(p.spoke.pump.chunk)).(spoke := p.spoke.(pump := PumpIdle))
      else p.(spoke := p.spoke.(pump := PumpLeaving(HubGone)))
    case PumpSendEof => SendBack(p, Close(true)).(spoke := p.spoke.(pump := PumpLeaving(TargetEof)))
    case PumpTake => p.(spoke := p.spoke.(pump := PumpWrite(p.spoke.inbound[0]), inbound := p.spoke.inbound[1..]))
    case PumpWriteOk =>
      p.(spoke := p.spoke.(pump := PumpIdle),
         hist := p.hist.(targetWritten := p.hist.targetWritten + p.spoke.pump.chunk))
    case PumpWriteFail(n) =>
      p.(spoke := p.spoke.(pump := PumpLeaving(TargetWriteError)),
         hist := p.hist.(targetWritten := p.hist.targetWritten + p.spoke.pump.chunk[..n]))
    case PumpNone => p.(spoke := p.spoke.(pump := PumpLeaving(HubClosed)))
    case PumpRemove => p.(spoke := p.spoke.(pump := PumpGone(p.spoke.pump.why), inMap := false))
  }

  predicate Enabled(p: Pipe, a: Act) {
    match a
    case ByAccept(b) => CanAccept(p, b)
    case ByUp(b) => CanUp(p, b)
    case ByDn(b) => CanDn(p, b)
    case ByRecv(b) => CanRecv(p, b)
    case ByLink(b) => true
    case ByLoop(b) => CanLoop(p, b)
    case ByPump(b) => CanPump(p, b)
  }

  function Apply(p: Pipe, a: Act): Pipe
    requires Enabled(p, a)
  {
    match a
    case ByAccept(b) => DoAccept(p, b)
    case ByUp(b) => DoUp(p, b)
    case ByDn(b) => DoDn(p, b)
    case ByRecv(b) => DoRecv(p, b)
    case ByLink(b) => DoLink(p, b)
    case ByLoop(b) => DoLoop(p, b)
    case ByPump(b) => DoPump(p, b)
  }
}
