/** A Close is never half: once a stream has left the hub's map, for whatever reason, its
    connection receives what the hub already held and nothing else, however much the target
    still sends. */
module HalfClose {
  import opened Wire
  import opened Stream
  import opened Tunnel
  import opened TunnelProofs
  import opened TunnelTheorems
  import S = StreamProofs

  /** What the connection is still owed: the bytes past the receive loop while its writer
      works, only those written when it has stopped. */
  function Due(h: HubEnd, written: Bytes): Bytes {
    if S.DnAlive(h.dn) then S.AtHub(h, written) else written
  }

  /** The stream is out of the map, and `due` is all its connection gets: unless a write
      fails, exactly that. */
  predicate Frozen(h: HubEnd, written: Bytes, due: Bytes) {
    && h.entry.Out?
    && written <= due
    && (S.DnAlive(h.dn) ==> S.AtHub(h, written) == due)
    && (!S.DnAlive(h.dn) && h.dn.why.Drained? ==> written == due)
  }

  predicate PipeFrozen(p: Pipe, due: Bytes) {
    Frozen(p.hub, p.hist.hubWritten, due)
  }

  lemma DnKeepsFrozen(p: Pipe, a: DnAct, due: Bytes)
    requires PipeFrozen(p, due) && CanDn(p, a)
    ensures PipeFrozen(DoDn(p, a), due)
  {
    var h := p.hub;
    var next := if h.recv.RecvDeliver? then h.recv.payload else [];
    var held := if h.dn.DnWrite? then h.dn.chunk else [];
    S.LinePrefix(p.hist.hubWritten, held, Flatten(h.writer), next, [], if a.WriteFail? then a.n else 0);
    if a.Take? {
      S.TakeMoves(p.hist.hubWritten, h.writer, next);
    } else if a.WriteOk? {
      S.WriteMoves(p.hist.hubWritten, held, Flatten(h.writer), next);
    }
  }

  lemma RecvKeepsFrozen(p: Pipe, a: RecvAct, due: Bytes)
    requires PipeFrozen(p, due) && CanRecv(p, a)
    ensures PipeFrozen(DoRecv(p, a), due)
  {
    var h := p.hub;
    if a.RecvPush? && S.DnAlive(h.dn) {
      S.PushMoves(p.hist.hubWritten, if h.dn.DnWrite? then h.dn.chunk else [], h.writer, h.recv.payload);
    }
  }

  lemma AcceptKeepsFrozen(p: Pipe, a: AcceptAct, due: Bytes)
    requires S.Order(p) && PipeFrozen(p, due) && CanAccept(p, a)
    ensures PipeFrozen(DoAccept(p, a), due)
  {
  }

  lemma UpKeepsFrozen(p: Pipe, a: UpAct, due: Bytes)
    requires PipeFrozen(p, due) && CanUp(p, a)
    ensures PipeFrozen(DoUp(p, a), due)
  {
  }

  lemma LoopKeepsFrozen(p: Pipe, a: LoopAct, due: Bytes)
    requires PipeFrozen(p, due) && CanLoop(p, a)
    ensures PipeFrozen(DoLoop(p, a), due)
  {
    assert DoLoop(p, a).hub == p.hub;
  }

  lemma PumpKeepsFrozen(p: Pipe, a: PumpAct, due: Bytes)
    requires PipeFrozen(p, due) && CanPump(p, a)
    ensures PipeFrozen(DoPump(p, a), due)
  {
    assert DoPump(p, a).hub == p.hub;
  }

  lemma StepKeepsFrozen(p: Pipe, a: Act, due: Bytes)
    requires S.Order(p) && PipeFrozen(p, due) && Enabled(p, a)
    ensures PipeFrozen(Apply(p, a), due)
  {
    match a
    case ByDn(b) => DnKeepsFrozen(p, b, due);
    case ByRecv(b) => RecvKeepsFrozen(p, b, due);
    case ByAccept(b) => AcceptKeepsFrozen(p, b, due);
    case ByUp(b) => UpKeepsFrozen(p, b, due);
    case ByLink(b) =>
    case ByLoop(b) => LoopKeepsFrozen(p, b, due);
    case ByPump(b) => PumpKeepsFrozen(p, b, due);
  }

  function DueAt(m: Session, x: Sid): Bytes {
    Due(HubOf(m, x), HistoryOf(m, x).hubWritten)
  }

  /** From the moment the stream is out of the map its connection is owed, for the rest of the
      run, exactly what it was owed then: no more, and no less unless a write fails. */
  lemma CloseIsNeverHalf(states: seq<Session>, steps: seq<Step>, i: nat, j: nat, x: Sid)
    requires Run(states, steps) && i <= j < |states| && states[j].accepted < U64_RANGE
    requires EntryOf(states[i].shared, x).Out?
    ensures var due, m, dn := DueAt(states[i], x), states[j], ConnOf(states[j], x).dn;
      && EntryOf(m.shared, x).Out?
      && (S.DnAlive(dn) ==> S.AtHub(HubOf(m, x), HistoryOf(m, x).hubWritten) == due)
      && (!S.DnAlive(dn) && dn.why.Drained? ==> HistoryOf(m, x).hubWritten == due)
      && HistoryOf(m, x).hubWritten <= due
    ensures DueAt(states[i], x) <= S.AtHub(HubOf(states[i], x), HistoryOf(states[i], x).hubWritten)
  {
    FrozenSince(states, steps, i, j, x);
    WrittenIsAtHub(HubOf(states[i], x), HistoryOf(states[i], x).hubWritten);
  }

  lemma WrittenIsAtHub(h: HubEnd, written: Bytes)
    ensures written <= S.AtHub(h, written)
  {
    S.LinePrefix(written, if h.dn.DnWrite? then h.dn.chunk else [], Flatten(h.writer),
                 if h.recv.RecvDeliver? then h.recv.payload else [], [], 0);
  }

  lemma {:induction false} FrozenSince(states: seq<Session>, steps: seq<Step>, i: nat, j: nat, x: Sid)
    requires Run(states, steps) && i <= j < |states| && states[j].accepted < U64_RANGE
    requires EntryOf(states[i].shared, x).Out?
    ensures PipeFrozen(View(states[j], x), DueAt(states[i], x))
  {
    if i < j {
      var m, s := states[j - 1], steps[j - 1];
      RunLink(states, steps, j - 1);
      AcceptedGrows(m, s);
      FrozenSince(states, steps, i, j - 1, x);
      RunGood(states, steps, j - 1);
      FreshWhenNew(m, s);
      StepProjects(m, s, x);
      assert S.Inv(View(m, x));
      if Concerns(m, s, x) {
        StepKeepsFrozen(View(m, x), ActOf(s), DueAt(states[i], x));
      }
    } else {
      WrittenIsAtHub(HubOf(states[i], x), HistoryOf(states[i], x).hubWritten);
    }
  }

  // ---- when the answer is complete all the same ----

  lemma {:induction false} TargetReadGrows(states: seq<Session>, steps: seq<Step>, i: nat, j: nat, x: Sid)
    requires Run(states, steps) && i <= j < |states| && states[j].accepted < U64_RANGE
    ensures HistoryOf(states[i], x).targetRead <= HistoryOf(states[j], x).targetRead
  {
    if i < j {
      RunLink(states, steps, j - 1);
      AcceptedGrows(states[j - 1], steps[j - 1]);
      TargetReadGrows(states, steps, i, j - 1, x);
      RefinesChannels(states, steps, j - 1, x);
    }
  }

  lemma DueWasRead(p: Pipe)
    requires S.Inv(p)
    ensures Due(p.hub, p.hist.hubWritten) <= p.hist.targetRead
  {
    var held := if p.spoke.pump.PumpSend? then p.spoke.pump.chunk else [];
    assert Payload(p.hist.spokeSent) <= Payload(p.hist.spokeSent) + held;
  }

  /** A drained connection has received all that the target ever sent if and only if, when
      the stream left the map, everything the target had sent had passed the hub's receive
      loop, and the target sent nothing afterwards. */
  lemma AnswerIsCompleteIff(states: seq<Session>, steps: seq<Step>, i: nat, j: nat, x: Sid)
    requires Run(states, steps) && i <= j < |states| && states[j].accepted < U64_RANGE
    requires EntryOf(states[i].shared, x).Out?
    requires var dn := ConnOf(states[j], x).dn; !S.DnAlive(dn) && dn.why.Drained?
    ensures var h, h' := HistoryOf(states[i], x), HistoryOf(states[j], x);
      && (h'.hubWritten == h'.targetRead <==> DueAt(states[i], x) == h'.targetRead)
      && (h'.hubWritten == h'.targetRead <==>
            DueAt(states[i], x) == h.targetRead && h'.targetRead == h.targetRead)
  {
    CloseIsNeverHalf(states, steps, i, j, x);
    TargetReadGrows(states, steps, i, j, x);
    AcceptedUpTo(states, steps, i, j);
    RunGood(states, steps, i);
    DueWasRead(View(states[i], x));
  }

  lemma {:induction false} AcceptedUpTo(states: seq<Session>, steps: seq<Step>, i: nat, j: nat)
    requires Run(states, steps) && i <= j < |states|
    ensures states[i].accepted <= states[j].accepted
  {
    if i < j {
      RunLink(states, steps, j - 1);
      AcceptedGrows(states[j - 1], steps[j - 1]);
      AcceptedUpTo(states, steps, i, j - 1);
    }
  }

  // ---- the loss is real ----

  const OPENED := [Frame(1, Open("default"))]

  const ENDED := OPENED + [Frame(1, Close(true))]

  /** One connection whose client closed its sending side; the target answers afterwards. */
  function Shut(c: Conn, back: seq<Frame>, recv: HubLoop, down: seq<Frame>, loop: SpokeLoop, sent: seq<Frame>,
                inMap: set<Sid>, targets: map<Sid, Target>): Session
  {
    Session(1, HubShared(false, {}, 0, map[1 := ByUpstream]), map[1 := c], recv,
            Wires(down, true, back, true, ENDED, sent), loop, inMap, targets)
  }

  lemma ClientSendsEof() returns (states: seq<Session>, steps: seq<Step>)
    ensures Run(states, steps)
    ensures states[|steps|]
         == OneConn(NO_CONN.(accept := Running, up := UpEof), HubShared(false, {1}, 1, map[]), OPENED)
  {
    states, steps := OneConnOpened();
    states, steps := Extend(states, steps, AtUp(1, ReadEof),
                            OneConn(NO_CONN.(accept := Running, up := UpEof), HubShared(false, {1}, 1, map[]), OPENED));
  }

  lemma ClientShutsDown() returns (states: seq<Session>, steps: seq<Step>, c: Conn)
    ensures Run(states, steps) && c == NO_CONN.(accept := Running, up := UpGone(Eof))
    ensures states[|steps|] == Shut(c, [], HubIdle, ENDED, SpokeIdle, [], {}, map[])
  {
    states, steps := ClientSendsEof();
    c := NO_CONN.(accept := Running, up := UpGone(Eof));
    states, steps := Extend(states, steps, AtUp(1, SendClose),
                            OneConn(c.(up := UpLeaving(Eof)), HubShared(false, {1}, 1, map[]), ENDED));
    states, steps := Extend(states, steps, AtUp(1, Remove), Shut(c, [], HubIdle, ENDED, SpokeIdle, [], {}, map[]));
  }

  lemma SpokeOpens() returns (states: seq<Session>, steps: seq<Step>, c: Conn)
    ensures Run(states, steps) && c == NO_CONN.(accept := Running, up := UpGone(Eof))
    ensures states[|steps|]
         == Shut(c, [], HubIdle, ENDED[1..], SpokeIdle, [], {1}, map[1 := NO_TARGET.(pump := PumpIdle)])
  {
    states, steps, c := ClientShutsDown();
    var t, late := NO_TARGET, ENDED[1..];
    states, steps := Extend(states, steps, AtLoop(LoopTake),
                            Shut(c, [], HubIdle, late, SpokeGot(OPENED[0]), [], {}, map[]));
    states, steps := Extend(states, steps, AtLoop(LoopHandle(true)),
                            Shut(c, [], HubIdle, late, SpokeIdle, [], {1}, map[1 := t.(pump := Dialing)]));
    states, steps := Extend(states, steps, AtPump(1, DialOk),
                            Shut(c, [], HubIdle, late, SpokeIdle, [], {1}, map[1 := t.(pump := PumpIdle)]));
  }

  lemma TargetAnswers() returns (states: seq<Session>, steps: seq<Step>, c: Conn)
    ensures Run(states, steps) && c == NO_CONN.(accept := Running, up := UpGone(Eof))
    ensures states[|steps|] == Shut(c, [Frame(1, Data([7]))], HubIdle, ENDED[1..], SpokeIdle,
                                    [Frame(1, Data([7]))], {1}, map[1 := NO_TARGET.(pump := PumpIdle, read := [7])])
  {
    states, steps, c := SpokeOpens();
    var t, late := NO_TARGET, ENDED[1..];
    var answer := [Frame(1, Data([7]))];
    assert t.read + [7] == [7];
    states, steps := Extend(states, steps, AtPump(1, PumpRead([7])),
                            Shut(c, [], HubIdle, late, SpokeIdle, [], {1},
                                 map[1 := t.(pump := PumpSend([7]), read := [7])]));
    states, steps := Extend(states, steps, AtPump(1, PumpSendData),
                            Shut(c, answer, HubIdle, late, SpokeIdle, answer, {1},
                                 map[1 := t.(pump := PumpIdle, read := [7])]));
  }

  /** A client that ends its request by shutting down its sending side never sees the answer:
      the session is open, the target's bytes arrive at the hub, and the hub drops them. */
  lemma AnswerIsLost() returns (states: seq<Session>, steps: seq<Step>)
    ensures Run(states, steps)
    ensures var m := states[|steps|];
      && !m.shared.closed && m.wires.hubTx && m.wires.spokeTx && m.wires.back == []
      && TargetOf(m, 1).read == [7] && ConnOf(m, 1).written == [] && ConnOf(m, 1).dn.DnGone?
  {
    var c;
    states, steps, c := TargetAnswers();
    var answer, late := [Frame(1, Data([7]))], ENDED[1..];
    var targets := map[1 := NO_TARGET.(pump := PumpIdle, read := [7])];
    states, steps := Extend(states, steps, AtRecv(RecvTake),
                            Shut(c, [], HubGot(answer[0]), late, SpokeIdle, answer, {1}, targets));
    states, steps := Extend(states, steps, AtRecv(RecvHandle),
                            Shut(c, [], HubIdle, late, SpokeIdle, answer, {1}, targets));
    states, steps := Extend(states, steps, AtDn(1, End),
                            Shut(c.(dn := DnClosing(Drained)), [], HubIdle, late, SpokeIdle, answer, {1}, targets));
    states, steps := Extend(states, steps, AtDn(1, Exit),
                            Shut(c.(dn := DnGone(Drained)), [], HubIdle, late, SpokeIdle, answer, {1}, targets));
  }
}
