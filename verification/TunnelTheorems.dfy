/** What every run of a tunnel session guarantees. */
module TunnelTheorems {
  import opened Wire
  import opened Stream
  import opened Tunnel
  import opened TunnelProofs
  import opened Ledger
  import S = StreamProofs

  // ---- the session invariant ----

  /** Ids are handed out in order, so while the counter has not wrapped the next one is fresh. */
  predicate Numbered(m: Session) {
    forall x :: x in m.conns ==> 1 <= x <= m.accepted
  }

  predicate Good(m: Session) {
    && Numbered(m)
    && Sound(BookOf(m)) && Balanced(BookOf(m))
    && forall x: Sid :: S.Inv(View(m, x))
  }

  lemma InitGood(m: Session)
    requires Init(m)
    ensures Good(m)
  {
    assert Uncounted(BookOf(m)) == {} == Leaked(BookOf(m));
    forall x: Sid ensures S.Inv(View(m, x)) {
      assert View(m, x) == Start(true, true);
    }
  }

  /** A session may start after any number of connections accepted before it. */
  lemma AnyStart(accepted: nat)
    ensures Init(Session(accepted, HubShared(false, {}, 0, map[]), map[], HubIdle, Wires([], true, [], true, [], []),
                         SpokeIdle, {}, map[]))
  {
  }

  lemma FreshId(m: Session)
    requires Numbered(m) && m.accepted + 1 < U64_RANGE
    ensures NextSid(m.accepted) == m.accepted + 1 && NextSid(m.accepted) !in m.conns
  {
  }

  /** What a step means for the hub's book-keeping. */
  function MoveOf(m: Session, s: Step): Move
    requires CanStep(m, s)
  {
    match s
    case NewConn => NewId(NextSid(m.accepted))
    case AtAccept(sid, a) =>
      (match a
       case TakeId => Still
       case Register => Insert(sid)
       case Count => Inc(sid)
       case SendOpen(_) => OpenTried(sid, m.wires.hubTx)
       case RollBack => Undone(sid))
    case AtUp(sid, Remove) => Taken(sid, ByUpstream)
    case AtRecv(RecvHandle) =>
      if m.recv.f.kind.Close? then Taken(m.recv.f.sid, BySpokeClose(m.recv.f.kind.half)) else Still
    case AtRecv(RecvRemove) => Taken(m.recv.sid, ByEvict)
    case AtLink(ClearStreams) => Cleared
    case MarkClosed => Marked
    case _ => Still
  }

  /** A payload is delivered only to a connection this session has accepted. */
  lemma DeliverIsKnown(m: Session)
    requires m.recv.HubDeliver? && S.Inv(View(m, m.recv.sid))
    ensures m.recv.sid in m.conns
  {
    assert View(m, m.recv.sid).hub.recv.RecvDeliver?;
  }

  lemma AcceptBooks(m: Session, sid: Sid, a: AcceptAct)
    requires CanStep(m, AtAccept(sid, a))
    ensures BookOf(AcceptStep(m, sid, a)) == Moved(BookOf(m), MoveOf(m, AtAccept(sid, a)))
  {
  }

  /** An accept that is rolled back finds its entry, unless the session's end took it. */
  lemma RollBackFinds(m: Session, sid: Sid)
    requires CanStep(m, AtAccept(sid, RollBack)) && S.Inv(View(m, sid))
    ensures sid !in m.shared.streams ==> sid in m.shared.removed && m.shared.removed[sid].BySessionClose?
  {
    assert View(m, sid).hub.entry == EntryOf(m.shared, sid) && View(m, sid).hub.accept.OpenFailed?;
  }

  lemma AcceptMoves(m: Session, sid: Sid, a: AcceptAct)
    requires CanStep(m, AtAccept(sid, a)) && S.Inv(View(m, sid))
    ensures BookOf(AcceptStep(m, sid, a)) == Moved(BookOf(m), MoveOf(m, AtAccept(sid, a)))
    ensures CanMove(BookOf(m), MoveOf(m, AtAccept(sid, a)))
  {
    AcceptBooks(m, sid, a);
    if a.RollBack? {
      RollBackFinds(m, sid);
    }
  }

  lemma HubTaskMoves(m: Session, s: Step)
    requires CanStep(m, s) && (s.AtUp? || s.AtDn?)
    ensures BookOf(Do(m, s)) == Moved(BookOf(m), MoveOf(m, s)) && CanMove(BookOf(m), MoveOf(m, s))
  {
  }

  lemma SpokeTaskMoves(m: Session, s: Step)
    requires CanStep(m, s) && (s.AtLoop? || s.AtPump?)
    ensures BookOf(Do(m, s)) == BookOf(m) && MoveOf(m, s).Still?
  {
  }

  lemma RecvPushMoves(m: Session)
    requires CanRecvStep(m, RecvPush) && m.recv.sid in m.conns
    ensures BookOf(RecvStep(m, RecvPush)) == BookOf(m)
  {
  }

  lemma RecvMoves(m: Session, a: RecvAct)
    requires CanRecvStep(m, a) && (a.RecvPush? ==> S.Inv(View(m, m.recv.sid)))
    ensures BookOf(RecvStep(m, a)) == Moved(BookOf(m), MoveOf(m, AtRecv(a)))
    ensures CanMove(BookOf(m), MoveOf(m, AtRecv(a)))
  {
    if a.RecvPush? {
      DeliverIsKnown(m);
      RecvPushMoves(m);
    } else {
      assert RecvStep(m, a).conns == m.conns;
    }
  }

  lemma StepMoves(m: Session, s: Step)
    requires Good(m) && CanStep(m, s) && Do(m, s).accepted < U64_RANGE
    ensures BookOf(Do(m, s)) == Moved(BookOf(m), MoveOf(m, s)) && CanMove(BookOf(m), MoveOf(m, s))
  {
    if s.AtAccept? {
      AcceptMoves(m, s.sid, s.accept);
    } else if s.AtRecv? {
      RecvMoves(m, s.recv);
    } else if s.AtUp? || s.AtDn? {
      HubTaskMoves(m, s);
    } else if s.AtLoop? || s.AtPump? {
      SpokeTaskMoves(m, s);
    } else if s.NewConn? {
      FreshId(m);
    }
  }

  lemma StepGood(m: Session, s: Step)
    requires Good(m) && CanStep(m, s) && Do(m, s).accepted < U64_RANGE
    ensures Good(Do(m, s))
  {
    StepMoves(m, s);
    MoveSound(BookOf(m), MoveOf(m, s));
    MoveBalanced(BookOf(m), MoveOf(m, s));
    StepNumbered(m, s);
    StepKeepsStreams(m, s);
  }

  lemma StepNumbered(m: Session, s: Step)
    requires Numbered(m) && CanStep(m, s) && Do(m, s).accepted < U64_RANGE
    requires BookOf(Do(m, s)) == Moved(BookOf(m), MoveOf(m, s))
    requires CanMove(BookOf(m), MoveOf(m, s))
    ensures Numbered(Do(m, s))
  {
    AcceptedGrows(m, s);
    MovedKeys(BookOf(m), MoveOf(m, s));
    BookKeys(m);
    BookKeys(Do(m, s));
  }

  lemma MovedKeys(b: Book, v: Move)
    requires CanMove(b, v)
    ensures Moved(b, v).pcs.Keys == if v.NewId? then b.pcs.Keys + {v.sid} else b.pcs.Keys
  {
  }

  lemma BookKeys(m: Session)
    ensures BookOf(m).pcs.Keys == m.conns.Keys
  {
  }

  lemma StepKeepsStreams(m: Session, s: Step)
    requires Good(m) && CanStep(m, s) && Do(m, s).accepted < U64_RANGE
    ensures forall x: Sid :: S.Inv(View(Do(m, s), x))
  {
    if s.NewConn? {
      FreshId(m);
    }
    forall x: Sid ensures S.Inv(View(Do(m, s), x)) {
      StepProjects(m, s, x);
      assert S.Inv(View(m, x));
      if Concerns(m, s, x) {
        S.StepKeeps(View(m, x), ActOf(s));
      }
    }
  }

  lemma AcceptedGrows(m: Session, s: Step)
    requires CanStep(m, s)
    ensures m.accepted <= Do(m, s).accepted
    ensures MoveOf(m, s).NewId? ==> MoveOf(m, s).sid == NextSid(m.accepted) && Do(m, s).accepted == m.accepted + 1
  {
  }

  /** Every state of every run is good, as long as fewer than 2^64 ids were handed out. */
  lemma {:induction false} RunGood(states: seq<Session>, steps: seq<Step>, i: nat)
    requires Run(states, steps) && i < |states| && states[i].accepted < U64_RANGE
    ensures Good(states[i])
  {
    if i == 0 {
      InitGood(states[0]);
    } else {
      var m, s, n := states[i - 1], steps[i - 1], states[i];
      RunLink(states, steps, i - 1);
      AcceptedGrows(m, s);
      RunGood(states, steps, i - 1);
      StepGood(m, s);
    }
  }

  lemma RunLink(states: seq<Session>, steps: seq<Step>, i: nat)
    requires Run(states, steps) && i < |steps|
    ensures CanStep(states[i], steps[i]) && states[i + 1] == Do(states[i], steps[i])
  {
  }

  // ---- main results, for every interleaving ----

  /** Whatever else is multiplexed with it, each direction of each stream delivers a prefix
      of what was read at its other end. */
  lemma PrefixFaithful(states: seq<Session>, steps: seq<Step>, i: nat, x: Sid)
    requires Run(states, steps) && i < |states| && states[i].accepted < U64_RANGE
    ensures var h := HistoryOf(states[i], x);
      h.targetWritten <= h.hubRead && h.hubWritten <= h.targetRead
  {
    RunGood(states, steps, i);
    S.PrefixesOf(View(states[i], x));
  }

  /** A step extends the input or the output of one stream in one direction, and is
      invisible to every other stream: the session refines independent channels. */
  lemma RefinesChannels(states: seq<Session>, steps: seq<Step>, i: nat, x: Sid)
    requires Run(states, steps) && i < |steps| && states[i + 1].accepted < U64_RANGE
    ensures var h, h' := HistoryOf(states[i], x), HistoryOf(states[i + 1], x);
      && S.ChannelNext(S.Forward(h), S.Forward(h'))
      && S.ChannelNext(S.Backward(h), S.Backward(h'))
    ensures forall y: Sid :: y != x ==>
      HistoryOf(states[i + 1], x) == HistoryOf(states[i], x) || HistoryOf(states[i + 1], y) == HistoryOf(states[i], y)
  {
    var m, s := states[i], steps[i];
    RunLink(states, steps, i);
    AcceptedGrows(m, s);
    RunGood(states, steps, i);
    FreshWhenNew(m, s);
    StepProjects(m, s, x);
    if Concerns(m, s, x) {
      S.StepIsChannelStep(View(m, x), ActOf(s));
    }
    forall y: Sid | y != x
      ensures HistoryOf(states[i + 1], x) == HistoryOf(m, x) || HistoryOf(states[i + 1], y) == HistoryOf(m, y)
    {
      StepIsIsolated(m, s, x, y);
    }
  }

  lemma FreshWhenNew(m: Session, s: Step)
    requires Numbered(m) && CanStep(m, s) && Do(m, s).accepted < U64_RANGE
    ensures s.NewConn? ==> NextSid(m.accepted) !in m.conns
  {
    if s.NewConn? {
      FreshId(m);
    }
  }

  lemma OneIsConcerned(m: Session, s: Step, x: Sid, y: Sid)
    requires CanStep(m, s) && x != y && Concerns(m, s, x) && Concerns(m, s, y)
    ensures s.AtLink?
  {
  }

  lemma StepIsIsolated(m: Session, s: Step, x: Sid, y: Sid)
    requires CanStep(m, s) && x != y
    requires s.NewConn? ==> NextSid(m.accepted) !in m.conns
    ensures HistoryOf(Do(m, s), x) == HistoryOf(m, x) || HistoryOf(Do(m, s), y) == HistoryOf(m, y)
  {
    if !Concerns(m, s, x) {
      StepProjects(m, s, x);
      assert View(Do(m, s), x).hist == View(m, x).hist;
    } else if !Concerns(m, s, y) {
      StepProjects(m, s, y);
      assert View(Do(m, s), y).hist == View(m, y).hist;
    } else {
      OneIsConcerned(m, s, x, y);
    }
  }

  /** A spoke pump that ends because its channel closed has written all the hub ever read,
      and the hub read to end of file; a hub writer that drained after the spoke's Close has
      written all the target ever sent. */
  lemma LosslessDrain(states: seq<Session>, steps: seq<Step>, i: nat, x: Sid)
    requires Run(states, steps) && i < |states| && states[i].accepted < U64_RANGE
    ensures var p, h := TargetOf(states[i], x).pump, HistoryOf(states[i], x);
      S.PumpDead(p) && p.why.HubClosed? ==>
        h.targetWritten == h.hubRead && S.UpLeft(ConnOf(states[i], x).up) && ConnOf(states[i], x).up.why.Eof?
    ensures var e, dn, h := EntryOf(states[i].shared, x), ConnOf(states[i], x).dn, HistoryOf(states[i], x);
      e.Out? && e.cause.BySpokeClose? && !S.DnAlive(dn) && dn.why.Drained? ==> h.hubWritten == h.targetRead
    ensures EntryOf(states[i].shared, x) == Out(BySpokeClose(true)) ==>
        S.PumpDead(TargetOf(states[i], x).pump) && TargetOf(states[i], x).pump.why.TargetEof?
  {
    RunGood(states, steps, i);
    S.DrainOf(View(states[i], x));
  }

  /** All frames ever sent for an id form `Open Data* Close?` downwards and `Data* Close?`
      upwards after that Open. The spoke sees Open once, before it has a pump, and any
      other frame only after it has handled that Open. */
  lemma FrameGrammar(states: seq<Session>, steps: seq<Step>, i: nat, x: Sid)
    requires Run(states, steps) && i < |states| && states[i].accepted < U64_RANGE
    ensures var down, up := Only(states[i].wires.hubSent, x), Only(states[i].wires.spokeSent, x);
      S.OpenDataClose(down) && S.DataThenClose(up) && (up != [] ==> down != [])
    ensures var l := states[i].loop;
      l.SpokeGot? && Carries(l.f, x) ==> (l.f.kind.Open? <==> TargetOf(states[i], x).pump.Unopened?)
  {
    RunGood(states, steps, i);
    S.OrderOf(View(states[i], x));
  }

  /** The gauge counts the entries, up to increments still to come and to entries that
      closing the session dropped; it agrees with the map exactly when none was dropped. */
  lemma GaugeLaw(states: seq<Session>, steps: seq<Step>, i: nat)
    requires Run(states, steps) && i < |states| && states[i].accepted < U64_RANGE
    ensures var b := BookOf(states[i]);
      && b.h.gauge + |Uncounted(b)| == |b.h.streams| + |Leaked(b)|
      && (b.h.gauge + |Uncounted(b)| == |b.h.streams| <==> Leaked(b) == {})
      && (!b.h.closed ==> Leaked(b) == {})
  {
    RunGood(states, steps, i);
  }

  /** The book of some state of some run. */
  ghost predicate Reachable(b: Book) {
    exists states: seq<Session>, steps: seq<Step>, i: nat ::
      Run(states, steps) && i < |states| && states[i].accepted < U64_RANGE && b == BookOf(states[i])
  }

  /** The exported gauge of a spoke, to which each of its sessions has contributed, the closed
      ones too. */
  function Exported(books: seq<Book>): int {
    if books == [] then 0 else Exported(books[..|books| - 1]) + books[|books| - 1].h.gauge
  }

  function AllUncounted(books: seq<Book>): nat {
    if books == [] then 0 else AllUncounted(books[..|books| - 1]) + |Uncounted(books[|books| - 1])|
  }

  function AllEntries(books: seq<Book>): nat {
    if books == [] then 0 else AllEntries(books[..|books| - 1]) + |books[|books| - 1].h.streams|
  }

  function AllLeaked(books: seq<Book>): nat {
    if books == [] then 0 else AllLeaked(books[..|books| - 1]) + |Leaked(books[|books| - 1])|
  }

  lemma ReachableBalanced(b: Book)
    requires Reachable(b)
    ensures Balanced(b)
  {
    var states: seq<Session>, steps: seq<Step>, i: nat :|
      Run(states, steps) && i < |states| && states[i].accepted < U64_RANGE && b == BookOf(states[i]);
    RunGood(states, steps, i);
  }

  /** The gauge as exported, over all sessions a spoke ever had: entries plus leaks, up to
      increments still to come, and equal to the entries exactly when no session leaked. */
  lemma {:induction false} SpokeGaugeLaw(books: seq<Book>)
    requires forall k :: 0 <= k < |books| ==> Reachable(books[k])
    ensures Exported(books) + AllUncounted(books) == AllEntries(books) + AllLeaked(books)
    ensures Exported(books) + AllUncounted(books) == AllEntries(books)
      <==> forall k :: 0 <= k < |books| ==> Leaked(books[k]) == {}
  {
    if books != [] {
      var n := |books| - 1;
      var front := books[..n];
      assert forall k :: 0 <= k < n ==> front[k] == books[k];
      SpokeGaugeLaw(front);
      ReachableBalanced(books[n]);
      assert |Leaked(books[n])| == 0 <==> Leaked(books[n]) == {};
    }
  }

  lemma Extend(before: seq<Session>, past: seq<Step>, s: Step, m: Session)
    returns (states: seq<Session>, steps: seq<Step>)
    requires Run(before, past) && CanStep(before[|past|], s) && m == Do(before[|past|], s)
    ensures Run(states, steps) && states[|steps|] == m
  {
    states, steps := before + [m], past + [s];
  }

  /** A session with one accepted connection, id 1, and the frames it has sent. */
  function OneConn(c: Conn, h: HubShared, sent: seq<Frame>): Session {
    Session(1, h, map[1 := c], HubIdle, Wires(sent, true, [], true, sent, []), SpokeIdle, {}, map[])
  }

  lemma OneConnRegistered() returns (states: seq<Session>, steps: seq<Step>)
    ensures Run(states, steps)
    ensures states[|steps|] == OneConn(NO_CONN.(accept := Registered), HubShared(false, {1}, 0, map[]), [])
  {
    var h := HubShared(false, {}, 0, map[]);
    states, steps := [Session(0, h, map[], HubIdle, Wires([], true, [], true, [], []), SpokeIdle, {}, map[])], [];
    states, steps := Extend(states, steps, NewConn, OneConn(NO_CONN.(accept := Allocated), h, []));
    states, steps := Extend(states, steps, AtAccept(1, Register),
                            OneConn(NO_CONN.(accept := Registered), h.(streams := {1}), []));
  }

  lemma OneConnOpened() returns (states: seq<Session>, steps: seq<Step>)
    ensures Run(states, steps)
    ensures states[|steps|]
         == OneConn(NO_CONN.(accept := Running), HubShared(false, {1}, 1, map[]), [Frame(1, Open("default"))])
  {
    states, steps := OneConnRegistered();
    var h := HubShared(false, {1}, 1, map[]);
    states, steps := Extend(states, steps, AtAccept(1, Count), OneConn(NO_CONN.(accept := Counted), h, []));
    states, steps := Extend(states, steps, AtAccept(1, SendOpen("default")),
                            OneConn(NO_CONN.(accept := Running), h, [Frame(1, Open("default"))]));
  }

  lemma UpstreamEnds(before: seq<Session>, past: seq<Step>, c: Conn, h: HubShared, sent: seq<Frame>)
    returns (states: seq<Session>, steps: seq<Step>)
    requires Run(before, past) && before[|past|] == OneConn(c, h, sent)
    requires c.accept.Running? && c.up.UpIdle? && 1 !in h.streams
    ensures Run(states, steps) && states[|steps|] == OneConn(c.(up := UpGone(ReadError)), h, sent)
  {
    states, steps := Extend(before, past, AtUp(1, ReadFail), OneConn(c.(up := UpLeaving(ReadError)), h, sent));
    states, steps := Extend(states, steps, AtUp(1, Remove), OneConn(c.(up := UpGone(ReadError)), h, sent));
  }

  lemma DownstreamEnds(before: seq<Session>, past: seq<Step>, c: Conn, h: HubShared, sent: seq<Frame>)
    returns (states: seq<Session>, steps: seq<Step>)
    requires Run(before, past) && before[|past|] == OneConn(c, h, sent)
    requires c.accept.Running? && c.dn.DnIdle? && c.writer == [] && 1 !in h.streams
    ensures Run(states, steps) && states[|steps|] == OneConn(c.(dn := DnGone(Drained)), h, sent)
  {
    states, steps := Extend(before, past, AtDn(1, End), OneConn(c.(dn := DnClosing(Drained)), h, sent));
    states, steps := Extend(states, steps, AtDn(1, Exit), OneConn(c.(dn := DnGone(Drained)), h, sent));
  }

  /** The leak is real: a stream still in the map when its session closes stays in the
      gauge for good, even after every hub task of the stream has finished. */
  lemma GaugeLeaks() returns (states: seq<Session>, steps: seq<Step>)
    ensures Run(states, steps)
    ensures states[|steps|].shared.streams == {} && states[|steps|].shared.gauge == 1
    ensures states[|steps|].conns.Keys == {1}
    ensures states[|steps|].conns[1].up.UpGone? && states[|steps|].conns[1].dn.DnGone?
  {
    states, steps := OneConnOpened();
    var h := HubShared(true, {}, 1, map[1 := BySessionClose]);
    var c, sent := NO_CONN.(accept := Running), [Frame(1, Open("default"))];
    states, steps := Extend(states, steps, AtLink(ClearStreams), OneConn(c, h, sent));
    states, steps := UpstreamEnds(states, steps, c, h, sent);
    states, steps := DownstreamEnds(states, steps, c.(up := UpGone(ReadError)), h, sent);
  }
}
