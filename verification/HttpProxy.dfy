/** Spoke-originated HTTP requests over any number of tunnel sessions, as a transition
    system: proxy handlers, the session task with its reconnects and flushes, and the hub's
    request handlers all take atomic steps in any order. Frames of different requests may
    overtake one another here, which the ordered transport never lets them do, and any frame
    may be lost with its session. */
module HttpProxy {
  import opened Wire
  import opened HttpGate
  import Ids

  /** How a proxy handler answers its HTTP caller. */
  datatype Outcome = Replied(r: HttpResponse) | SendFailure | TimedOut | ChannelClosed

  /** Status and body each outcome gives the caller. */
  function CallerSees(o: Outcome): (int, string) {
    match o
    case Replied(r) => AppSees(r)
    case SendFailure => (SERVICE_UNAVAILABLE, "tunnel send failed")
    case TimedOut => (GATEWAY_TIMEOUT, "hub response timeout")
    case ChannelClosed => (BAD_GATEWAY, "response channel closed")
  }

  /** A handler from the moment it has its stream id. */
  datatype HandlerPc = Numbered | Pending | Waiting | SendFailed | Expired | Done(o: Outcome)

  /** `slot` is the oneshot channel the handler waits on. */
  datatype Slot = Empty | Filled(r: HttpResponse)

  datatype Handler = Handler(epoch: nat, path: string, pc: HandlerPc, slot: Slot)

  /** The session task: reconnecting, serving, holding a reply taken out of the pending map,
      ending, detached, flushing what it drained. */
  datatype SessionPc =
    | Connecting | Serving | Holding(sid: Sid, r: HttpResponse) | Ending | Detached | Flushing(drained: set<Sid>)

  /** The sender the proxy handlers may clone: that of session `epoch`, or none. */
  datatype HubTx = NoHub | Hub(epoch: nat)

  /** The state the proxy handlers share with the session task. */
  datatype Proxy = Proxy(hubTx: HubTx, pending: set<Sid>, counter: Sid)

  /** A request on the hub: received, decided and counted, answered on the wire or not. */
  datatype HubPc = Received | Decided(k: KernelOutcome) | Sent(k: KernelOutcome) | Unsent(k: KernelOutcome)

  datatype HubReq = HubReq(epoch: nat, path: string, pc: HubPc)

  datatype State = State(
    gate: Gate,
    // spoke
    proxy: Proxy, cloned: multiset<nat>, handlers: map<Sid, Handler>, session: SessionPc, epoch: nat,
    // frames in flight, by session and request
    requests: map<Sid, nat>, replies: map<Sid, HttpResponse>,
    // hub
    hub: map<Sid, HubReq>, counted: map<Label, nat>,
    // history: requests numbered, request frames the hub received, response frames it sent
    numbered: nat, seen: multiset<Sid>, emitted: multiset<Sid>)

  datatype HandlerAct =
    Insert | SendOk | SendErr | RemoveUnsent | Receive | Expire | RemoveExpired | SenderLost

  datatype SessionAct =
    | Attach | ConnectFails | TakeReply(sid: Sid) | FillReply | End | Detach | Drain | FlushOne(sid: Sid) | Reconnect

  datatype HubAct = HubReceive | HubDecide(k: KernelOutcome) | HubSend(ok: bool)

  datatype Step =
    | CloneTx                            // a handler clones the current session's sender
    | Number(e: nat, path: string)       // ... and takes its stream id
    | ByHandler(sid: Sid, handler: HandlerAct)
    | BySession(session: SessionAct)
    | ByHub(sid: Sid, hub: HubAct)
    | LoseRequest(sid: Sid)              // frames in flight may be lost with their session
    | LoseReply(sid: Sid)

  predicate Init(s: State) {
    && s.proxy == Proxy(NoHub, {}, Ids.HALF) && s.cloned == multiset{} && s.handlers == map[]
    && s.session.Connecting? && s.epoch == 0
    && s.requests == map[] && s.replies == map[] && s.hub == map[]
    && s.counted == map[RejectedKind := 0, RejectedPath := 0, UpstreamErr := 0, Forwarded := 0]
    && s.numbered == 0 && s.seen == multiset{} && s.emitted == multiset{}
  }

  /** Still listening on the oneshot channel. */
  predicate Listening(pc: HandlerPc) {
    pc.Numbered? || pc.Pending? || pc.Waiting? || pc.SendFailed?
  }

  predicate At(s: State, sid: Sid, pc: HandlerPc) {
    sid in s.handlers && s.handlers[sid].pc == pc
  }

  /** The oneshot sender is gone without having been used. */
  predicate SenderGone(s: State, sid: Sid) {
    && sid !in s.proxy.pending
    && !(s.session.Holding? && s.session.sid == sid)
    && !(s.session.Flushing? && sid in s.session.drained)
  }

  /** A cloned sender of a dead session may still accept the frame, or refuse it. */
  predicate CanHandler(s: State, sid: Sid, a: HandlerAct) {
    match a
    case Insert => At(s, sid, Numbered)
    case SendOk => At(s, sid, Pending)
    case SendErr => At(s, sid, Pending)
    case RemoveUnsent => At(s, sid, SendFailed)
    case Receive => At(s, sid, Waiting) && s.handlers[sid].slot.Filled?
    case Expire => At(s, sid, Waiting) && s.handlers[sid].slot.Empty?
    case RemoveExpired => At(s, sid, Expired)
    case SenderLost => At(s, sid, Waiting) && s.handlers[sid].slot.Empty? && SenderGone(s, sid)
  }

  predicate CanSession(s: State, a: SessionAct) {
    match a
    case Attach => s.session.Connecting?
    case ConnectFails => s.session.Connecting?
    case TakeReply(sid) => s.session.Serving? && sid in s.replies && sid in s.hub && s.hub[sid].epoch == s.epoch
    case FillReply => s.session.Holding?
    case End => s.session.Serving?
    case Detach => s.session.Ending?
    case Drain => s.session.Detached?
    case FlushOne(sid) => s.session.Flushing? && sid in s.session.drained
    case Reconnect => s.session.Flushing? && s.session.drained == {}
  }

  predicate CanHub(s: State, sid: Sid, a: HubAct) {
    match a
    case HubReceive => sid in s.requests && sid in s.handlers
    case HubDecide(k) => sid in s.hub && s.hub[sid].pc.Received? && PossibleOutcome(k)
    case HubSend(_) => sid in s.hub && s.hub[sid].pc.Decided? && PossibleOutcome(s.hub[sid].pc.k)
  }

  predicate Can(s: State, a: Step) {
    match a
    case CloneTx => s.proxy.hubTx.Hub?
    case Number(e, _) => e in s.cloned
    case ByHandler(sid, b) => CanHandler(s, sid, b)
    case BySession(b) => CanSession(s, b)
    case ByHub(sid, b) => CanHub(s, sid, b)
    case LoseRequest(sid) => sid in s.requests
    case LoseReply(sid) => sid in s.replies
  }

  function SetPc(s: State, sid: Sid, pc: HandlerPc): State
    requires sid in s.handlers
  {
    s.(handlers := s.handlers[sid := s.handlers[sid].(pc := pc)])
  }

  /** `tx.send`: reaches the handler if it still listens, is dropped otherwise. */
  function Fill(hs: map<Sid, Handler>, sid: Sid, r: HttpResponse): map<Sid, Handler> {
    if sid in hs && Listening(hs[sid].pc) then hs[sid := hs[sid].(slot := Filled(r))] else hs
  }

  // ---- the shared state's own operations ----

  function AttachHub(p: Proxy, epoch: nat): Proxy {
    p.(hubTx := Hub(epoch))
  }

  function DetachHub(p: Proxy): Proxy {
    p.(hubTx := NoHub)
  }

  function TakeId(p: Proxy): Proxy {
    p.(counter := Ids.Succ(p.counter))
  }

  function AddPending(p: Proxy, sid: Sid): Proxy {
    p.(pending := p.pending + {sid})
  }

  function DropPending(p: Proxy, sid: Sid): Proxy {
    p.(pending := p.pending - {sid})
  }

  function DrainPending(p: Proxy): Proxy {
    p.(pending := {})
  }

  function CountOne(counted: map<Label, nat>, l: Label): map<Label, nat> {
    counted[l := (if l in counted then counted[l] else 0) + 1]
  }

  function DoHandler(s: State, sid: Sid, a: HandlerAct): State
    requires CanHandler(s, sid, a)
  {
    match a
    case Insert => SetPc(s, sid, Pending).(proxy := AddPending(s.proxy, sid))
    case SendOk => SetPc(s, sid, Waiting).(requests := s.requests[sid := s.handlers[sid].epoch])
    case SendErr => SetPc(s, sid, SendFailed)
    case RemoveUnsent => SetPc(s, sid, Done(SendFailure)).(proxy := DropPending(s.proxy, sid))
    case Receive => SetPc(s, sid, Done(Replied(s.handlers[sid].slot.r)))
    case Expire => SetPc(s, sid, Expired)
    case RemoveExpired => SetPc(s, sid, Done(TimedOut)).(proxy := DropPending(s.proxy, sid))
    case SenderLost => SetPc(s, sid, Done(ChannelClosed))
  }

  function DoSession(s: State, a: SessionAct): State
    requires CanSession(s, a)
  {
    match a
    case Attach => s.(session := Serving, proxy := AttachHub(s.proxy, s.epoch))
    case ConnectFails => s.(session := Ending)
    case TakeReply(sid) =>
      s.(replies := s.replies - {sid}, proxy := DropPending(s.proxy, sid),
         session := if sid in s.proxy.pending then Holding(sid, s.replies[sid]) else Serving)
    case FillReply => s.(handlers := Fill(s.handlers, s.session.sid, s.session.r), session := Serving)
    case End => s.(session := Ending)
    case Detach => s.(session := Detached, proxy := DetachHub(s.proxy))
    case Drain => s.(session := Flushing(s.proxy.pending), proxy := DrainPending(s.proxy))
    case FlushOne(sid) =>
      s.(handlers := Fill(s.handlers, sid, FLUSH_REPLY), session := Flushing(s.session.drained - {sid}))
    case Reconnect => s.(session := Connecting, epoch := s.epoch + 1)
  }

  function DoHub(s: State, sid: Sid, a: HubAct): State
    requires CanHub(s, sid, a)
  {
    match a
    case HubReceive =>
      s.(requests := s.requests - {sid}, seen := s.seen + multiset{sid},
         hub := s.hub[sid := HubReq(s.requests[sid], s.handlers[sid].path, Received)])
    case HubDecide(k) =>
      var q := s.hub[sid];
      s.(hub := s.hub[sid := q.(pc := Decided(k))], counted := CountOne(s.counted, HubLabel(s.gate, q.path, k)))
    case HubSend(ok) =>
      var q := s.hub[sid];
      if ok then
        s.(hub := s.hub[sid := q.(pc := Sent(q.pc.k))], emitted := s.emitted + multiset{sid},
           replies := s.replies[sid := HubAnswer(s.gate, q.path, q.pc.k)])
      else s.(hub := s.hub[sid := q.(pc := Unsent(q.pc.k))])
  }

  function DoNumber(s: State, e: nat, path: string): State {
    var sid := s.proxy.counter;
    s.(cloned := s.cloned - multiset{e}, numbered := s.numbered + 1, proxy := TakeId(s.proxy),
       handlers := s.handlers[sid := Handler(e, path, Numbered, Empty)])
  }

  function Do(s: State, a: Step): State
    requires Can(s, a)
  {
    match a
    case CloneTx => s.(cloned := s.cloned + multiset{s.proxy.hubTx.epoch})
    case Number(e, path) => DoNumber(s, e, path)
    case ByHandler(sid, b) => DoHandler(s, sid, b)
    case BySession(b) => DoSession(s, b)
    case ByHub(sid, b) => DoHub(s, sid, b)
    case LoseRequest(sid) => s.(requests := s.requests - {sid})
    case LoseReply(sid) => s.(replies := s.replies - {sid})
  }

  predicate Run(states: seq<State>, steps: seq<Step>) {
    && |states| == |steps| + 1
    && Init(states[0])
    && forall i {:trigger steps[i]} :: 0 <= i < |steps| ==>
          Can(states[i], steps[i]) && states[i + 1] == Do(states[i], steps[i])
  }
}
