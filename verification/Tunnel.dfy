/** One session of the reverse tunnel: any number of virtual TCP streams, and the
    control frames of everything else, multiplexed over one ordered frame queue in
    each direction. The state is what the two processes share and what each of their
    tasks holds; a run is an arbitrary interleaving of their atomic steps. */
module Tunnel {
  import opened Wire
  import opened Stream

  /** What the hub's tasks share under the `streams` lock, with the gauge they keep.
      `removed` is history: who took an entry out. */
  datatype HubShared = HubShared(closed: bool, streams: set<Sid>, gauge: int, removed: map<Sid, Remover>)

  function InsertStream(h: HubShared, sid: Sid): HubShared {
    h.(streams := h.streams + {sid})
  }

  function CountStream(h: HubShared): HubShared {
    h.(gauge := h.gauge + 1)
  }

  /** The four guarded removals: decrement only when the entry was present. */
  function RemoveStream(h: HubShared, sid: Sid, cause: Remover): HubShared {
    if sid in h.streams
    then h.(streams := h.streams - {sid}, gauge := h.gauge - 1, removed := h.removed[sid := cause])
    else h
  }

  /** The rollback after a failed Open decrements whether or not the entry was present. */
  function RollBackStream(h: HubShared, sid: Sid): HubShared {
    if sid in h.streams
    then h.(streams := h.streams - {sid}, gauge := h.gauge - 1, removed := h.removed[sid := ByRollBack])
    else h.(gauge := h.gauge - 1)
  }

  /** Closing the session clears the map and leaves the gauge alone. */
  function ClearAll(h: HubShared): HubShared {
    h.(streams := {}, removed := h.removed + map x | x in h.streams :: BySessionClose)
  }

  /** An accepted TCP connection on the hub, with its two tasks and writer channel. */
  datatype Conn = Conn(accept: AcceptPc, up: UpPc, dn: DnPc, writer: seq<Bytes>, read: Bytes, written: Bytes)

  const NO_CONN := Conn(Unborn, UpIdle, DnIdle, [], [], [])

  /** A stream opened on the spoke, with its pump and inbound channel. */
  datatype Target = Target(pump: PumpPc, inbound: seq<Bytes>, read: Bytes, written: Bytes)

  const NO_TARGET := Target(Unopened, [], [], [])

  datatype HubLoop = HubIdle | HubGot(f: Frame) | HubDeliver(sid: Sid, payload: Bytes) | HubEvict(sid: Sid) | HubEnded

  datatype SpokeLoop =
    SpokeIdle | SpokeGot(f: Frame) | SpokeDeliver(sid: Sid, payload: Bytes) | SpokeReject(sid: Sid) | SpokeEnded

  /** Both frame queues, whether sends into them still succeed, and all frames sent. */
  datatype Wires = Wires(
    down: seq<Frame>, hubTx: bool, back: seq<Frame>, spokeTx: bool, hubSent: seq<Frame>, spokeSent: seq<Frame>)

  datatype Session = Session(
    accepted: nat, shared: HubShared, conns: map<Sid, Conn>, recv: HubLoop,
    wires: Wires,
    loop: SpokeLoop, inMap: set<Sid>, targets: map<Sid, Target>)

  /** A fresh session; `accepted` connections were numbered by earlier sessions. */
  predicate Init(m: Session) {
    && m.shared == HubShared(false, {}, m.shared.gauge, map[])
    && m.conns == map[] && m.recv.HubIdle?
    && m.wires == Wires([], true, [], true, [], [])
    && m.loop.SpokeIdle? && m.inMap == {} && m.targets == map[]
    && m.shared.gauge == 0
  }

  function ConnOf(m: Session, sid: Sid): Conn {
    if sid in m.conns then m.conns[sid] else NO_CONN
  }

  function TargetOf(m: Session, sid: Sid): Target {
    if sid in m.targets then m.targets[sid] else NO_TARGET
  }

  /** `fetch_add(1) + 1` on an unsigned 64-bit counter. */
  function NextSid(accepted: nat): Sid {
    (accepted + 1) % U64_RANGE
  }

  // ---- projection onto one stream ----

  function EntryOf(h: HubShared, sid: Sid): Entry {
    if sid in h.streams then In else if sid in h.removed then Out(h.removed[sid]) else NeverIn
  }

  predicate Carries(f: Frame, sid: Sid) {
    f.sid == sid && !f.kind.Other?
  }

  function RecvOf(l: HubLoop, sid: Sid): RecvPc {
    match l
    case HubGot(f) => if Carries(f, sid) then RecvGot(f.kind) else RecvIdle
    case HubDeliver(s, d) => if s == sid then RecvDeliver(d) else RecvIdle
    case HubEvict(s) => if s == sid then RecvEvict else RecvIdle
    case _ => RecvIdle
  }

  function LoopOf(l: SpokeLoop, sid: Sid): LoopPc {
    match l
    case SpokeGot(f) => if Carries(f, sid) then LoopGot(f.kind) else LoopIdle
    case SpokeDeliver(s, d) => if s == sid then LoopDeliver(d) else LoopIdle
    case SpokeReject(s) => if s == sid then LoopReject else LoopIdle
    case _ => LoopIdle
  }

  function HubOf(m: Session, sid: Sid): HubEnd {
    var c := ConnOf(m, sid);
    HubEnd(c.accept, c.up, c.dn, c.writer, EntryOf(m.shared, sid), RecvOf(m.recv, sid))
  }

  function SpokeOf(m: Session, sid: Sid): SpokeEnd {
    var t := TargetOf(m, sid);
    SpokeEnd(LoopOf(m.loop, sid), t.pump, t.inbound, sid in m.inMap)
  }

  function LinkOf(w: Wires, sid: Sid): Link {
    Link(Only(w.down, sid), w.hubTx, Only(w.back, sid), w.spokeTx)
  }

  function HistoryOf(m: Session, sid: Sid): History {
    History(ConnOf(m, sid).read, ConnOf(m, sid).written, TargetOf(m, sid).read, TargetOf(m, sid).written,
            Only(m.wires.hubSent, sid), Only(m.wires.spokeSent, sid))
  }

  /** The stream `sid` as it looks when every other stream is ignored. */
  function View(m: Session, sid: Sid): Pipe {
    Pipe(HubOf(m, sid), LinkOf(m.wires, sid), SpokeOf(m, sid), HistoryOf(m, sid))
  }

  // ---- steps ----

  datatype Step =
    | NewConn                          // an accept loop of this session takes the next id
    | ForeignConn                      // an accept loop of another session takes it
    | AtAccept(sid: Sid, accept: AcceptAct)
    | AtUp(sid: Sid, up: UpAct)
    | AtDn(sid: Sid, dn: DnAct)
    | AtRecv(recv: RecvAct)
    | AtLink(link: LinkAct)
    | AtLoop(loop: LoopAct)
    | AtPump(sid: Sid, pump: PumpAct)
    | HubControl(f: Frame)             // any hub task queues a frame of another kind
    | SpokeControl(f: Frame)
    | MarkClosed                       // `closed` is set before the map is cleared
    | RecvStop                         // the receive loops may end at any frame boundary
    | LoopStop

  function QueueDown(w: Wires, f: Frame): Wires {
    if w.hubTx then w.(down := w.down + [f], hubSent := w.hubSent + [f]) else w
  }

  function QueueBack(w: Wires, f: Frame): Wires {
    if w.spokeTx then w.(back := w.back + [f], spokeSent := w.spokeSent + [f]) else w
  }

  function SetConn(m: Session, sid: Sid, c: Conn): Session {
    m.(conns := m.conns[sid := c])
  }

  function SetTarget(m: Session, sid: Sid, t: Target): Session {
    m.(targets := m.targets[sid := t])
  }

  /** The stream a receive loop is busy with. */
  function BusyWith(l: HubLoop): Sid {
    match l
    case HubGot(f) => f.sid
    case HubDeliver(s, _) => s
    case HubEvict(s) => s
    case _ => 0
  }

  function SpokeBusyWith(l: SpokeLoop): Sid {
    match l
    case SpokeGot(f) => f.sid
    case SpokeDeliver(s, _) => s
    case SpokeReject(s) => s
    case _ => 0
  }

  predicate CanRecvStep(m: Session, a: RecvAct) {
    match a
    case RecvTake => m.recv.HubIdle? && m.wires.back != []
    case RecvHandle => m.recv.HubGot?
    case RecvPush => m.recv.HubDeliver? && CanRecv(View(m, m.recv.sid), RecvPush)
    case RecvRemove => m.recv.HubEvict?
  }

  predicate CanLoopStep(m: Session, a: LoopAct) {
    match a
    case LoopTake => m.loop.SpokeIdle? && m.wires.down != []
    case LoopHandle(_) => m.loop.SpokeGot? && (m.loop.f.kind.Open? ==> m.loop.f.sid !in m.targets)
    case LoopPush => m.loop.SpokeDeliver? && CanLoop(View(m, m.loop.sid), LoopPush)
    case LoopRefuse => m.loop.SpokeReject?
  }

  predicate CanStep(m: Session, s: Step) {
    match s
    case NewConn => true
    case ForeignConn => true
    case AtAccept(sid, a) => sid in m.conns && !a.TakeId? && CanAccept(View(m, sid), a)
    case AtUp(sid, a) => sid in m.conns && CanUp(View(m, sid), a)
    case AtDn(sid, a) => sid in m.conns && CanDn(View(m, sid), a)
    case AtRecv(a) => CanRecvStep(m, a)
    case AtLink(a) => true
    case AtLoop(a) => CanLoopStep(m, a)
    case AtPump(sid, a) => sid in m.targets && CanPump(View(m, sid), a)
    case HubControl(f) => f.kind.Other?
    case SpokeControl(f) => f.kind.Other?
    case MarkClosed => true
    case RecvStop => m.recv.HubIdle?
    case LoopStop => m.loop.SpokeIdle?
  }

  function AcceptStep(m: Session, sid: Sid, a: AcceptAct): Session
    requires sid in m.conns && !a.TakeId?
  {
    var c := m.conns[sid];
    match a
    case TakeId => m
    case Register => SetConn(m, sid, c.(accept := Registered)).(shared := InsertStream(m.shared, sid))
    case Count => SetConn(m, sid, c.(accept := Counted)).(shared := CountStream(m.shared))
    case SendOpen(t) =>
      SetConn(m, sid, c.(accept := if m.wires.hubTx then Running else OpenFailed))
        .(wires := QueueDown(m.wires, Frame(sid, Open(t))))
    case RollBack => SetConn(m, sid, c.(accept := RolledBack)).(shared := RollBackStream(m.shared, sid))
  }

  function UpStep(m: Session, sid: Sid, a: UpAct): Session
    requires sid in m.conns && CanUp(View(m, sid), a)
  {
    var c := m.conns[sid];
    match a
    case Read(chunk) => SetConn(m, sid, c.(up := UpSend(chunk), read := c.read + chunk))
    case ReadEof => SetConn(m, sid, c.(up := UpEof))
    case ReadFail => SetConn(m, sid, c.(up := UpLeaving(ReadError)))
    case SendData =>
      SetConn(m, sid, c.(up := if m.wires.hubTx then UpIdle else UpLeaving(SendFailed)))
        .(wires := QueueDown(m.wires, Frame(sid, Data(c.up.chunk))))
    case SendClose =>
      SetConn(m, sid, c.(up := UpLeaving(Eof))).(wires := QueueDown(m.wires, Frame(sid, Close(true))))
    case Remove =>
      SetConn(m, sid, c.(up := UpGone(c.up.why))).(shared := RemoveStream(m.shared, sid, ByUpstream))
  }

  function DnStep(m: Session, sid: Sid, a: DnAct): Session
    requires sid in m.conns && CanDn(View(m, sid), a)
  {
    var c := m.conns[sid];
    SetConn(m, sid,
      match a
      case Take => c.(dn := DnWrite(c.writer[0]), writer := c.writer[1..])
      case WriteOk => c.(dn := DnIdle, written := c.written + c.dn.chunk)
      case WriteFail(n) => c.(dn := DnClosing(WriteError), written := c.written + c.dn.chunk[..n])
      case End => c.(dn := DnClosing(Drained))
      case Exit => c.(dn := DnGone(c.dn.why)))
  }

  function RecvStep(m: Session, a: RecvAct): Session
    requires CanRecvStep(m, a)
  {
    match a
    case RecvTake => m.(recv := HubGot(m.wires.back[0]), wires := m.wires.(back := m.wires.back[1..]))
    case RecvHandle =>
      var sid := m.recv.f.sid;
      (match m.recv.f.kind
       case Data(d) => m.(recv := if sid in m.shared.streams then HubDeliver(sid, d) else HubIdle)
       case Close(h) => m.(recv := HubIdle, shared := RemoveStream(m.shared, sid, BySpokeClose(h)))
       case _ => m.(recv := HubIdle))
    case RecvPush =>
      var sid := m.recv.sid;
      var c := ConnOf(m, sid);
      if c.dn.DnGone? then m.(recv := HubEvict(sid))
      else SetConn(m, sid, c.(writer := c.writer + [m.recv.payload])).(recv := HubIdle)
    case RecvRemove => m.(recv := HubIdle, shared := RemoveStream(m.shared, m.recv.sid, ByEvict))
  }

  function LinkStep(m: Session, a: LinkAct): Session {
    match a
    case ClearStreams => m.(shared := ClearAll(m.shared.(closed := true)))
    case DropHubTx => m.(wires := m.wires.(hubTx := false))
    case DropSpokeTx => m.(wires := m.wires.(spokeTx := false))
  }

  function LoopStep(m: Session, a: LoopAct): Session
    requires CanLoopStep(m, a)
  {
    match a
    case LoopTake => m.(loop := SpokeGot(m.wires.down[0]), wires := m.wires.(down := m.wires.down[1..]))
    case LoopHandle(known) =>
      var sid := m.loop.f.sid;
      (match m.loop.f.kind
       case Open(_) =>
         if known then SetTarget(m, sid, NO_TARGET.(pump := Dialing)).(loop := SpokeIdle, inMap := m.inMap + {sid})
         else m.(loop := SpokeReject(sid))
       case Data(d) => m.(loop := if sid in m.inMap then SpokeDeliver(sid, d) else SpokeIdle)
       case Close(_) => m.(loop := SpokeIdle, inMap := m.inMap - {sid})
       case Other => m.(loop := SpokeIdle))
    case LoopPush =>
      var sid := m.loop.sid;
      var t := TargetOf(m, sid);
      if t.pump.PumpGone? then m.(loop := SpokeIdle)
      else SetTarget(m, sid, t.(inbound := t.inbound + [m.loop.payload])).(loop := SpokeIdle)
    case LoopRefuse =>
      var sid := m.loop.sid;
      SetTarget(m, sid, TargetOf(m, sid).(pump := Rejected))
        .(loop := SpokeIdle, wires := QueueBack(m.wires, Frame(sid, Close(false))))
  }

  function PumpStep(m: Session, sid: Sid, a: PumpAct): Session
    requires sid in m.targets && CanPump(View(m, sid), a)
  {
    var t := m.targets[sid];
    match a
    case DialOk => SetTarget(m, sid, t.(pump := PumpIdle))
    case DialFail => SetTarget(m, sid, t.(pump := DialFailed))
    case SendDialClose =>
      SetTarget(m, sid, t.(pump := PumpLeaving(DialError))).(wires := QueueBack(m.wires, Frame(sid, Close(false))))
    case PumpRead(c) => SetTarget(m, sid, t.(pump := PumpSend(c), read := t.read + c))
    case PumpReadEnd => SetTarget(m, sid, t.(pump := PumpEof))
    case PumpSendData =>
      SetTarget(m, sid, t.(pump := if m.wires.spokeTx then PumpIdle else PumpLeaving(HubGone)))
        .(wires := QueueBack(m.wires, Frame(sid, Data(t.pump.chunk))))
    case PumpSendEof =>
      SetTarget(m, sid, t.(pump := PumpLeaving(TargetEof))).(wires := QueueBack(m.wires, Frame(sid, Close(true))))
    case PumpTake => SetTarget(m, sid, t.(pump := PumpWrite(t.inbound[0]), inbound := t.inbound[1..]))
    case PumpWriteOk => SetTarget(m, sid, t.(pump := PumpIdle, written := t.written + t.pump.chunk))
    case PumpWriteFail(n) =>
      SetTarget(m, sid, t.(pump := PumpLeaving(TargetWriteError), written := t.written + t.pump.chunk[..n]))
    case PumpNone => SetTarget(m, sid, t.(pump := PumpLeaving(HubClosed)))
    case PumpRemove => SetTarget(m, sid, t.(pump := PumpGone(t.pump.why))).(inMap := m.inMap - {sid})
  }

  function Do(m: Session, s: Step): Session
    requires CanStep(m, s)
  {
    match s
    case NewConn => SetConn(m, NextSid(m.accepted), NO_CONN.(accept := Allocated)).(accepted := m.accepted + 1)
    case ForeignConn => m.(accepted := m.accepted + 1)
    case AtAccept(sid, a) => AcceptStep(m, sid, a)
    case AtUp(sid, a) => UpStep(m, sid, a)
    case AtDn(sid, a) => DnStep(m, sid, a)
    case AtRecv(a) => RecvStep(m, a)
    case AtLink(a) => LinkStep(m, a)
    case AtLoop(a) => LoopStep(m, a)
    case AtPump(sid, a) => PumpStep(m, sid, a)
    case HubControl(f) => m.(wires := QueueDown(m.wires, f))
    case SpokeControl(f) => m.(wires := QueueBack(m.wires, f))
    case MarkClosed => m.(shared := m.shared.(closed := true))
    case RecvStop => m.(recv := HubEnded)
    case LoopStop => m.(loop := SpokeEnded)
  }

  /** A run: `states[i + 1]` follows from `states[i]` by `steps[i]`. */
  predicate Run(states: seq<Session>, steps: seq<Step>) {
    && |states| == |steps| + 1
    && Init(states[0])
    && forall i {:trigger steps[i]} :: 0 <= i < |steps| ==>
          CanStep(states[i], steps[i]) && states[i + 1] == Do(states[i], steps[i])
  }
}
