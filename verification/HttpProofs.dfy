/** What every run of the HTTP proxy keeps, over any number of sessions. */
module HttpProofs {
  import opened Wire
  import opened HttpGate
  import opened HttpProxy
  import Ids

  // ---- the invariant ----

  /** Ids of this run: 2^63 upwards, one per request. */
  predicate Ranged(p: Proxy, hs: map<Sid, Handler>, numbered: nat) {
    && p.counter == (if numbered == Ids.HALF then 0 else Ids.HALF + numbered)
    && forall x :: x in hs ==> Ids.HALF <= x < Ids.HALF + numbered
  }

  predicate Registered(h: Handler) {
    !h.pc.Numbered? && h.slot.Empty?
  }

  /** Each unused oneshot sender is in exactly one place: the pending map, the session
      task's hands, or the list being flushed. */
  predicate Senders(p: Proxy, hs: map<Sid, Handler>, t: SessionPc) {
    && (forall x :: x in hs && hs[x].pc.Numbered? ==> hs[x].slot.Empty? && x !in p.pending)
    && (forall x :: x in p.pending ==> x in hs && Registered(hs[x]) && !hs[x].pc.Done?)
    && (t.Holding? ==> t.sid in hs && Registered(hs[t.sid]) && t.sid !in p.pending)
    && (t.Flushing? ==> forall x :: x in t.drained ==> x in hs && Registered(hs[x]) && x !in p.pending)
  }

  /** A handler that still waits for its reply has a sender somewhere. */
  predicate NoneLost(p: Proxy, hs: map<Sid, Handler>, t: SessionPc) {
    forall x :: x in hs && hs[x].slot.Empty? && (hs[x].pc.Pending? || hs[x].pc.Waiting? || hs[x].pc.SendFailed?)
      ==> x in p.pending || (t.Holding? && t.sid == x) || (t.Flushing? && x in t.drained)
  }

  predicate NotSent(pc: HandlerPc) {
    pc.Numbered? || pc.Pending? || pc.SendFailed? || (pc.Done? && pc.o.SendFailure?)
  }

  /** A request frame is sent at most once and is in one place. */
  predicate Frames(hs: map<Sid, Handler>, requests: map<Sid, nat>, hub: map<Sid, HubReq>) {
    && (forall x :: x in requests ==> x in hs && !NotSent(hs[x].pc) && x !in hub && requests[x] == hs[x].epoch)
    && (forall x :: x in hub ==>
          x in hs && !NotSent(hs[x].pc) && hub[x].path == hs[x].path && hub[x].epoch == hs[x].epoch)
  }

  predicate SentBy(g: Gate, hub: map<Sid, HubReq>, x: Sid, r: HttpResponse) {
    && x in hub && hub[x].pc.Sent? && PossibleOutcome(hub[x].pc.k)
    && r == HubAnswer(g, hub[x].path, hub[x].pc.k)
  }

  predicate Genuine(g: Gate, hub: map<Sid, HubReq>, x: Sid, r: HttpResponse) {
    r == FLUSH_REPLY || SentBy(g, hub, x, r)
  }

  /** A reply reaches only the request it answers. */
  predicate Matching(g: Gate, hs: map<Sid, Handler>, t: SessionPc, replies: map<Sid, HttpResponse>,
                     hub: map<Sid, HubReq>)
  {
    && (forall x :: x in replies ==> SentBy(g, hub, x, replies[x]))
    && (t.Holding? ==> SentBy(g, hub, t.sid, t.r))
    && (forall x :: x in hs && hs[x].slot.Filled? ==> Genuine(g, hub, x, hs[x].slot.r))
    && (forall x :: x in hs && hs[x].pc.Done? ==>
          !hs[x].pc.o.ChannelClosed? && (hs[x].pc.o.Replied? ==> Genuine(g, hub, x, hs[x].pc.o.r)))
  }

  function OneIf(b: bool): nat {
    if b then 1 else 0
  }

  /** Requests on the hub that have been decided with label `l`. */
  function DecidedAs(g: Gate, hub: map<Sid, HubReq>, l: Label): set<Sid> {
    set x | x in hub && !hub[x].pc.Received? && HubLabel(g, hub[x].path, hub[x].pc.k) == l
  }

  /** One response per request received, none twice. */
  predicate Answers(hub: map<Sid, HubReq>, seen: multiset<Sid>, emitted: multiset<Sid>) {
    && (forall x: Sid :: seen[x] == OneIf(x in hub))
    && (forall x: Sid :: emitted[x] == OneIf(x in hub && hub[x].pc.Sent?))
  }

  /** One counter increment per decision. */
  predicate Counters(g: Gate, hub: map<Sid, HubReq>, counted: map<Label, nat>) {
    forall l: Label :: l in counted && counted[l] == |DecidedAs(g, hub, l)|
  }

  predicate Inv(s: State) {
    && Ranged(s.proxy, s.handlers, s.numbered)
    && Senders(s.proxy, s.handlers, s.session)
    && NoneLost(s.proxy, s.handlers, s.session)
    && Frames(s.handlers, s.requests, s.hub)
    && Matching(s.gate, s.handlers, s.session, s.replies, s.hub)
    && Answers(s.hub, s.seen, s.emitted)
    && Counters(s.gate, s.hub, s.counted)
  }

  lemma InitInv(s: State)
    requires Init(s)
    ensures Inv(s)
  {
    forall l: Label ensures l in s.counted && s.counted[l] == |DecidedAs(s.gate, s.hub, l)| {
      assert DecidedAs(s.gate, s.hub, l) == {};
      match l
      case RejectedKind =>
      case RejectedPath =>
      case UpstreamErr =>
      case Forwarded =>
    }
  }

  // ---- preservation ----

  lemma NumberKeepsSenders(s: State, e: nat, path: string)
    requires Ranged(s.proxy, s.handlers, s.numbered) && s.numbered < Ids.HALF
    requires Senders(s.proxy, s.handlers, s.session)
    ensures var n := DoNumber(s, e, path);
      Ranged(n.proxy, n.handlers, n.numbered) && Senders(n.proxy, n.handlers, n.session)
  {
    assert s.proxy.counter !in s.handlers;
  }

  lemma NumberKeepsNoneLost(s: State, e: nat, path: string)
    requires NoneLost(s.proxy, s.handlers, s.session)
    ensures var n := DoNumber(s, e, path); NoneLost(n.proxy, n.handlers, n.session)
  {
  }

  lemma NumberKeepsFrames(s: State, e: nat, path: string)
    requires s.proxy.counter !in s.handlers && Frames(s.handlers, s.requests, s.hub)
    ensures var n := DoNumber(s, e, path); Frames(n.handlers, n.requests, n.hub)
  {
  }

  lemma NumberKeepsMatching(s: State, e: nat, path: string)
    requires Matching(s.gate, s.handlers, s.session, s.replies, s.hub)
    ensures var n := DoNumber(s, e, path); Matching(n.gate, n.handlers, n.session, n.replies, n.hub)
  {
  }

  lemma HandlerKeepsSenders(s: State, sid: Sid, a: HandlerAct)
    requires Senders(s.proxy, s.handlers, s.session) && CanHandler(s, sid, a)
    ensures var n := DoHandler(s, sid, a); Senders(n.proxy, n.handlers, n.session)
  {
  }

  lemma HandlerKeepsNoneLost(s: State, sid: Sid, a: HandlerAct)
    requires NoneLost(s.proxy, s.handlers, s.session) && CanHandler(s, sid, a)
    ensures var n := DoHandler(s, sid, a); NoneLost(n.proxy, n.handlers, n.session)
  {
  }

  lemma HandlerKeepsFrames(s: State, sid: Sid, a: HandlerAct)
    requires Frames(s.handlers, s.requests, s.hub) && CanHandler(s, sid, a)
    ensures var n := DoHandler(s, sid, a); Frames(n.handlers, n.requests, n.hub)
  {
  }

  lemma HandlerKeepsMatching(s: State, sid: Sid, a: HandlerAct)
    requires Matching(s.gate, s.handlers, s.session, s.replies, s.hub) && CanHandler(s, sid, a)
    requires NoneLost(s.proxy, s.handlers, s.session)
    ensures var n := DoHandler(s, sid, a); Matching(n.gate, n.handlers, n.session, n.replies, n.hub)
  {
  }

  lemma FillKeepsFrames(s: State, sid: Sid, r: HttpResponse)
    requires Frames(s.handlers, s.requests, s.hub)
    ensures Frames(Fill(s.handlers, sid, r), s.requests, s.hub)
  {
  }

  lemma FillKeepsMatching(s: State, sid: Sid, r: HttpResponse)
    requires Matching(s.gate, s.handlers, s.session, s.replies, s.hub) && Genuine(s.gate, s.hub, sid, r)
    ensures Matching(s.gate, Fill(s.handlers, sid, r), Serving, s.replies, s.hub)
  {
  }

  /** Using a sender takes it out of the session task's hands. */
  lemma FillKeepsSenders(p: Proxy, hs: map<Sid, Handler>, t: SessionPc, sid: Sid, r: HttpResponse, t': SessionPc)
    requires Senders(p, hs, t) && NoneLost(p, hs, t)
    requires (t == Holding(sid, r) && t'.Serving?)
          || (t.Flushing? && sid in t.drained && t' == Flushing(t.drained - {sid}))
    ensures Senders(p, Fill(hs, sid, r), t') && NoneLost(p, Fill(hs, sid, r), t')
  {
    var hs' := Fill(hs, sid, r);
    assert forall x :: x in hs' <==> x in hs;
    assert forall x :: x in hs && x != sid ==> hs'[x] == hs[x];
  }

  lemma TakeReplyKeepsSenders(s: State, sid: Sid)
    requires Senders(s.proxy, s.handlers, s.session) && CanSession(s, TakeReply(sid))
    requires NoneLost(s.proxy, s.handlers, s.session)
    ensures var n := DoSession(s, TakeReply(sid));
      Senders(n.proxy, n.handlers, n.session) && NoneLost(n.proxy, n.handlers, n.session)
  {
  }

  lemma SessionKeepsSenders(s: State, a: SessionAct)
    requires Senders(s.proxy, s.handlers, s.session) && CanSession(s, a)
    requires NoneLost(s.proxy, s.handlers, s.session)
    ensures var n := DoSession(s, a);
      Senders(n.proxy, n.handlers, n.session) && NoneLost(n.proxy, n.handlers, n.session)
  {
    match a
    case FillReply =>
      FillKeepsSenders(s.proxy, s.handlers, s.session, s.session.sid, s.session.r, Serving);
    case FlushOne(sid) =>
      FillKeepsSenders(s.proxy, s.handlers, s.session, sid, FLUSH_REPLY, Flushing(s.session.drained - {sid}));
    case TakeReply(sid) => TakeReplyKeepsSenders(s, sid);
    case _ =>
  }

  lemma SessionKeepsMatching(s: State, a: SessionAct)
    requires Matching(s.gate, s.handlers, s.session, s.replies, s.hub) && CanSession(s, a)
    requires Frames(s.handlers, s.requests, s.hub)
    ensures var n := DoSession(s, a);
      Matching(n.gate, n.handlers, n.session, n.replies, n.hub) && Frames(n.handlers, n.requests, n.hub)
  {
    match a
    case FillReply =>
      FillKeepsMatching(s, s.session.sid, s.session.r);
      FillKeepsFrames(s, s.session.sid, s.session.r);
    case FlushOne(sid) =>
      FillKeepsMatching(s, sid, FLUSH_REPLY);
      FillKeepsFrames(s, sid, FLUSH_REPLY);
    case _ =>
  }

  lemma HubKeepsFrames(s: State, sid: Sid, a: HubAct)
    requires Frames(s.handlers, s.requests, s.hub) && CanHub(s, sid, a)
    ensures var n := DoHub(s, sid, a); Frames(n.handlers, n.requests, n.hub)
  {
    if a.HubReceive? {
      ReceiveKeepsFrames(s.handlers, s.requests, s.hub, sid);
    } else {
      MoveKeepsFrames(s.handlers, s.requests, s.hub, sid, DoHub(s, sid, a).hub[sid].pc);
    }
  }

  lemma ReceiveKeepsFrames(hs: map<Sid, Handler>, requests: map<Sid, nat>, hub: map<Sid, HubReq>, sid: Sid)
    requires Frames(hs, requests, hub) && sid in requests && sid in hs
    ensures Frames(hs, requests - {sid}, hub[sid := HubReq(requests[sid], hs[sid].path, Received)])
  {
  }

  lemma MoveKeepsFrames(hs: map<Sid, Handler>, requests: map<Sid, nat>, hub: map<Sid, HubReq>, sid: Sid, pc: HubPc)
    requires Frames(hs, requests, hub) && sid in hub
    ensures Frames(hs, requests, hub[sid := hub[sid].(pc := pc)])
  {
  }

  /** What was sent by the hub stays sent. */
  predicate Extends(g: Gate, hub: map<Sid, HubReq>, hub': map<Sid, HubReq>) {
    forall x :: x in hub && hub[x].pc.Sent? ==> x in hub' && hub'[x] == hub[x]
  }

  lemma ExtendKeepsMatching(g: Gate, hs: map<Sid, Handler>, t: SessionPc, replies: map<Sid, HttpResponse>,
                            hub: map<Sid, HubReq>, hub': map<Sid, HubReq>)
    requires Matching(g, hs, t, replies, hub) && Extends(g, hub, hub')
    ensures Matching(g, hs, t, replies, hub')
  {
  }

  lemma HubKeepsMatching(s: State, sid: Sid, a: HubAct)
    requires Matching(s.gate, s.handlers, s.session, s.replies, s.hub) && CanHub(s, sid, a)
    requires Frames(s.handlers, s.requests, s.hub)
    ensures var n := DoHub(s, sid, a); Matching(n.gate, n.handlers, n.session, n.replies, n.hub)
  {
    ExtendKeepsMatching(s.gate, s.handlers, s.session, s.replies, s.hub, DoHub(s, sid, a).hub);
  }

  lemma AnswersReceive(hub: map<Sid, HubReq>, seen: multiset<Sid>, emitted: multiset<Sid>, sid: Sid, q: HubReq)
    requires Answers(hub, seen, emitted) && sid !in hub && q.pc.Received?
    ensures Answers(hub[sid := q], seen + multiset{sid}, emitted)
  {
  }

  lemma AnswersSend(hub: map<Sid, HubReq>, seen: multiset<Sid>, emitted: multiset<Sid>, sid: Sid, q: HubReq)
    requires Answers(hub, seen, emitted) && sid in hub && !hub[sid].pc.Sent?
    ensures Answers(hub[sid := q], seen, if q.pc.Sent? then emitted + multiset{sid} else emitted)
  {
  }

  lemma HubKeepsAnswers(s: State, sid: Sid, a: HubAct)
    requires Answers(s.hub, s.seen, s.emitted) && CanHub(s, sid, a) && (a.HubReceive? ==> sid !in s.hub)
    ensures var n := DoHub(s, sid, a); Answers(n.hub, n.seen, n.emitted)
  {
    var q := DoHub(s, sid, a).hub[sid];
    if a.HubReceive? {
      AnswersReceive(s.hub, s.seen, s.emitted, sid, q);
    } else {
      AnswersSend(s.hub, s.seen, s.emitted, sid, q);
    }
  }

  lemma CountersStay(g: Gate, hub: map<Sid, HubReq>, hub': map<Sid, HubReq>, counted: map<Label, nat>)
    requires Counters(g, hub, counted)
    requires forall l: Label :: DecidedAs(g, hub', l) == DecidedAs(g, hub, l)
    ensures Counters(g, hub', counted)
  {
  }

  lemma DecidedGrows(g: Gate, hub: map<Sid, HubReq>, sid: Sid, k: KernelOutcome, l: Label)
    requires sid in hub && hub[sid].pc.Received?
    ensures |DecidedAs(g, hub[sid := hub[sid].(pc := Decided(k))], l)|
         == |DecidedAs(g, hub, l)| + OneIf(l == HubLabel(g, hub[sid].path, k))
  {
    var hub' := hub[sid := hub[sid].(pc := Decided(k))];
    DecidedSets(g, hub, sid, k, l);
    if l == HubLabel(g, hub[sid].path, k) {
      assert sid !in DecidedAs(g, hub, l);
    }
  }

  lemma DecidedSets(g: Gate, hub: map<Sid, HubReq>, sid: Sid, k: KernelOutcome, l: Label)
    requires sid in hub && hub[sid].pc.Received?
    ensures DecidedAs(g, hub[sid := hub[sid].(pc := Decided(k))], l)
         == DecidedAs(g, hub, l) + if l == HubLabel(g, hub[sid].path, k) then {sid} else {}
  {
  }

  lemma CountersGrow(g: Gate, hub: map<Sid, HubReq>, sid: Sid, k: KernelOutcome, counted: map<Label, nat>)
    requires Counters(g, hub, counted) && sid in hub && hub[sid].pc.Received?
    ensures Counters(g, hub[sid := hub[sid].(pc := Decided(k))], CountOne(counted, HubLabel(g, hub[sid].path, k)))
  {
    var hub' := hub[sid := hub[sid].(pc := Decided(k))];
    var mine := HubLabel(g, hub[sid].path, k);
    forall l: Label ensures |DecidedAs(g, hub', l)| == |DecidedAs(g, hub, l)| + OneIf(l == mine) {
      DecidedGrows(g, hub, sid, k, l);
    }
  }

  lemma HubKeepsCounters(s: State, sid: Sid, a: HubAct)
    requires Counters(s.gate, s.hub, s.counted) && CanHub(s, sid, a) && (a.HubReceive? ==> sid !in s.hub)
    ensures var n := DoHub(s, sid, a); Counters(n.gate, n.hub, n.counted)
  {
    if a.HubDecide? {
      CountersGrow(s.gate, s.hub, sid, a.k, s.counted);
    } else {
      var hub' := DoHub(s, sid, a).hub;
      forall l: Label ensures DecidedAs(s.gate, hub', l) == DecidedAs(s.gate, s.hub, l) {
      }
      CountersStay(s.gate, s.hub, hub', s.counted);
    }
  }

  lemma HandlerKeeps(s: State, sid: Sid, a: HandlerAct)
    requires Inv(s) && CanHandler(s, sid, a)
    ensures Inv(DoHandler(s, sid, a))
  {
    HandlerKeepsSenders(s, sid, a);
    HandlerKeepsNoneLost(s, sid, a);
    HandlerKeepsFrames(s, sid, a);
    HandlerKeepsMatching(s, sid, a);
  }

  lemma SessionKeeps(s: State, a: SessionAct)
    requires Inv(s) && CanSession(s, a)
    ensures Inv(DoSession(s, a))
  {
    SessionKeepsSenders(s, a);
    SessionKeepsMatching(s, a);
  }

  lemma HubKeeps(s: State, sid: Sid, a: HubAct)
    requires Inv(s) && CanHub(s, sid, a)
    ensures Inv(DoHub(s, sid, a))
  {
    HubKeepsFrames(s, sid, a);
    HubKeepsMatching(s, sid, a);
    HubKeepsAnswers(s, sid, a);
    HubKeepsCounters(s, sid, a);
  }

  lemma NumberKeeps(s: State, e: nat, path: string)
    requires Inv(s) && s.numbered < Ids.HALF
    ensures Inv(DoNumber(s, e, path))
  {
    NumberKeepsSenders(s, e, path);
    NumberKeepsNoneLost(s, e, path);
    NumberKeepsFrames(s, e, path);
    NumberKeepsMatching(s, e, path);
  }

  lemma StepKeeps(s: State, a: Step)
    requires Inv(s) && Can(s, a) && Do(s, a).numbered <= Ids.HALF
    ensures Inv(Do(s, a))
  {
    match a
    case Number(e, path) => NumberKeeps(s, e, path);
    case ByHandler(sid, b) => HandlerKeeps(s, sid, b);
    case BySession(b) => SessionKeeps(s, b);
    case ByHub(sid, b) => HubKeeps(s, sid, b);
    case _ =>
  }

  // ---- what a step may do to a handler ----

  /** Released: has its reply, or no longer waits for one. */
  predicate Released(h: Handler) {
    h.slot.Filled? || !Listening(h.pc)
  }

  predicate HandlerNext(h: Handler, n: Handler) {
    (h.pc.Done? ==> n.pc == h.pc) && (Released(h) ==> Released(n))
  }

  lemma NumberHandlers(s: State, e: nat, path: string, x: Sid)
    requires Ranged(s.proxy, s.handlers, s.numbered) && s.numbered < Ids.HALF && x in s.handlers
    ensures x in DoNumber(s, e, path).handlers && DoNumber(s, e, path).handlers[x] == s.handlers[x]
  {
  }

  lemma HandlerHandlers(s: State, sid: Sid, a: HandlerAct, x: Sid)
    requires CanHandler(s, sid, a) && x in s.handlers
    ensures x in DoHandler(s, sid, a).handlers && HandlerNext(s.handlers[x], DoHandler(s, sid, a).handlers[x])
  {
  }

  lemma SessionHandlers(s: State, a: SessionAct, x: Sid)
    requires CanSession(s, a) && x in s.handlers
    ensures x in DoSession(s, a).handlers && HandlerNext(s.handlers[x], DoSession(s, a).handlers[x])
    ensures a == FlushOne(x) ==> Released(DoSession(s, a).handlers[x])
  {
  }

  lemma StepHandlers(s: State, a: Step, x: Sid)
    requires Ranged(s.proxy, s.handlers, s.numbered) && Can(s, a) && Do(s, a).numbered <= Ids.HALF
    requires x in s.handlers
    ensures x in Do(s, a).handlers && HandlerNext(s.handlers[x], Do(s, a).handlers[x])
    ensures a == BySession(FlushOne(x)) ==> Released(Do(s, a).handlers[x])
  {
    match a
    case Number(e, path) => NumberHandlers(s, e, path, x);
    case ByHandler(sid, b) => HandlerHandlers(s, sid, b, x);
    case BySession(b) => SessionHandlers(s, b, x);
    case _ =>
  }
}
