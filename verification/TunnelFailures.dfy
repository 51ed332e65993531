/** How a connection ends when something fails: a peer that cuts a chunk off, a target that cannot
    be dialed or is not known, a link that is down. One run for each, for any bytes. */
module TunnelFailures {
  import opened Wire
  import opened Stream
  import opened Tunnel
  import opened TunnelTheorems
  import opened TunnelEcho

  const LIVE := NO_CONN.(accept := Running)

  const DIALED := NO_TARGET.(pump := PumpIdle)

  /** What the hub shares once the stream is out of its map. */
  function Dropped(cause: Remover): HubShared {
    HubShared(false, {}, 0, map[1 := cause])
  }

  // ---- the client cuts the answer off ----

  lemma AnswerAtHub(a: Bytes) returns (states: seq<Session>, steps: seq<Step>)
    requires IsChunk(a)
    ensures Run(states, steps)
    ensures states[|steps|] == Talk(LIVE.(writer := [a]), HELD, [], [], [OPEN], [Frame(1, Data(a))], {1},
                                    DIALED.(read := a))
  {
    states, steps := TargetDialed();
    states, steps := TargetSends(states, steps, a);
    assert [] + a == a && [] + [Frame(1, Data(a))] == [Frame(1, Data(a))];
    states, steps := HubReceives(states, steps, a);
  }

  lemma WriteCutOff(a: Bytes, n: nat) returns (states: seq<Session>, steps: seq<Step>)
    requires IsChunk(a) && n <= |a|
    ensures Run(states, steps)
    ensures states[|steps|] == Talk(LIVE.(dn := DnClosing(WriteError), written := a[..n]), HELD, [], [], [OPEN],
                                    [Frame(1, Data(a))], {1}, DIALED.(read := a))
  {
    states, steps := AnswerAtHub(a);
    var m := states[|steps|];
    assert [a][1..] == [] && [] + a[..n] == a[..n];
    states, steps := Extend(states, steps, AtDn(1, Take), SetConn(m, 1, LIVE.(dn := DnWrite(a))));
    states, steps := Extend(states, steps, AtDn(1, WriteFail(n)),
                            SetConn(m, 1, LIVE.(dn := DnClosing(WriteError), written := a[..n])));
  }

  lemma WriterFails(a: Bytes, n: nat) returns (states: seq<Session>, steps: seq<Step>)
    requires IsChunk(a) && n <= |a|
    ensures Run(states, steps)
    ensures states[|steps|] == Talk(LIVE.(dn := DnGone(WriteError), written := a[..n]), HELD, [], [], [OPEN],
                                    [Frame(1, Data(a))], {1}, DIALED.(read := a))
  {
    states, steps := WriteCutOff(a, n);
    var m := states[|steps|];
    states, steps := Extend(states, steps, AtDn(1, Exit),
                            SetConn(m, 1, LIVE.(dn := DnGone(WriteError), written := a[..n])));
  }

  /** The next payload finds the writer gone and evicts the stream. */
  lemma DeliveryEvicts(before: seq<Session>, past: seq<Step>, b: Bytes, m: Session)
    returns (states: seq<Session>, steps: seq<Step>)
    requires Run(before, past) && before[|past|] == m.(wires := m.wires.(back := [Frame(1, Data(b))]))
    requires m.recv.HubIdle? && m.wires.back == [] && m.shared == HELD
    requires 1 in m.conns && m.conns[1].dn.DnGone?
    ensures Run(states, steps) && states[|steps|] == m.(shared := Dropped(ByEvict))
  {
    assert [Frame(1, Data(b))][1..] == [];
    states, steps := Extend(before, past, AtRecv(RecvTake), m.(recv := HubGot(Frame(1, Data(b)))));
    states, steps := Extend(states, steps, AtRecv(RecvHandle), m.(recv := HubDeliver(1, b)));
    states, steps := Extend(states, steps, AtRecv(RecvPush), m.(recv := HubEvict(1)));
    states, steps := Extend(states, steps, AtRecv(RecvRemove), m.(shared := Dropped(ByEvict)));
  }

  /** A client may have got any first part of a chunk when its connection fails; the stream leaves
      the hub's map when the target sends again. */
  lemma ClientCutsOff(a: Bytes, n: nat, b: Bytes) returns (states: seq<Session>, steps: seq<Step>)
    requires IsChunk(a) && n <= |a| && IsChunk(b)
    ensures Run(states, steps)
    ensures var m := states[|steps|];
      && m.conns == map[1 := Conn(Running, UpIdle, DnGone(WriteError), [], [], a[..n])]
      && m.shared == HubShared(false, {}, 0, map[1 := ByEvict]) && m.recv.HubIdle?
  {
    states, steps := WriterFails(a, n);
    var m := states[|steps|];
    states, steps := TargetSends(states, steps, b);
    assert [] + [Frame(1, Data(b))] == [Frame(1, Data(b))];
    m := states[|steps|].(wires := states[|steps|].wires.(back := []));
    states, steps := DeliveryEvicts(states, steps, b, m);
  }

  // ---- the target cuts the request off ----

  lemma RequestAtSpoke(q: Bytes) returns (states: seq<Session>, steps: seq<Step>)
    requires IsChunk(q)
    ensures Run(states, steps)
    ensures states[|steps|] == Talk(LIVE.(read := q), HELD, [], [], [OPEN, Frame(1, Data(q))], [], {1},
                                    DIALED.(inbound := [q]))
  {
    states, steps := TargetDialed();
    states, steps := ClientSends(states, steps, q);
    assert [] + q == q && [] + [Frame(1, Data(q))] == [Frame(1, Data(q))];
    states, steps := SpokeReceives(states, steps, q);
  }

  lemma PumpFails(q: Bytes, n: nat) returns (states: seq<Session>, steps: seq<Step>)
    requires IsChunk(q) && n <= |q|
    ensures Run(states, steps)
    ensures states[|steps|] == Talk(LIVE.(read := q), HELD, [], [], [OPEN, Frame(1, Data(q))], [], {1},
                                    NO_TARGET.(pump := PumpLeaving(TargetWriteError), written := q[..n]))
  {
    states, steps := RequestAtSpoke(q);
    var m := states[|steps|];
    assert [q][1..] == [] && [] + q[..n] == q[..n];
    states, steps := Extend(states, steps, AtPump(1, PumpTake), SetTarget(m, 1, NO_TARGET.(pump := PumpWrite(q))));
    states, steps := Extend(states, steps, AtPump(1, PumpWriteFail(n)),
                            SetTarget(m, 1, NO_TARGET.(pump := PumpLeaving(TargetWriteError), written := q[..n])));
  }

  /** A target may have got any first part of a chunk when it fails; the pump ends. */
  lemma TargetCutsOff(q: Bytes, n: nat) returns (states: seq<Session>, steps: seq<Step>)
    requires IsChunk(q) && n <= |q|
    ensures Run(states, steps)
    ensures var m := states[|steps|];
      m.targets == map[1 := Target(PumpGone(TargetWriteError), [], [], q[..n])] && m.inMap == {}
  {
    states, steps := PumpFails(q, n);
    var m := states[|steps|];
    states, steps := Extend(states, steps, AtPump(1, PumpRemove),
                            SetTarget(m, 1, NO_TARGET.(pump := PumpGone(TargetWriteError), written := q[..n]))
                              .(inMap := {}));
  }

  // ---- the target is not there ----

  /** The spoke's end of a stream that never got a target, and its one answer on the way. */
  function Unreached(loop: SpokeLoop, back: seq<Frame>, sent: seq<Frame>, inMap: set<Sid>, targets: map<Sid, Target>)
    : Session
  {
    Session(1, HELD, map[1 := LIVE], HubIdle, Wires([], true, back, true, [OPEN], sent), loop, inMap, targets)
  }

  lemma OpenArrives() returns (states: seq<Session>, steps: seq<Step>)
    ensures Run(states, steps) && states[|steps|] == Unreached(SpokeGot(OPEN), [], [], {}, map[])
  {
    states, steps := OneConnOpened();
    assert [OPEN][1..] == [];
    states, steps := Extend(states, steps, AtLoop(LoopTake), Unreached(SpokeGot(OPEN), [], [], {}, map[]));
  }

  lemma UnknownTarget() returns (states: seq<Session>, steps: seq<Step>)
    ensures Run(states, steps)
    ensures states[|steps|] == Unreached(SpokeIdle, [Frame(1, Close(false))], [Frame(1, Close(false))], {},
                                         map[1 := NO_TARGET.(pump := Rejected)])
  {
    states, steps := OpenArrives();
    var last := [Frame(1, Close(false))];
    assert [] + last == last;
    states, steps := Extend(states, steps, AtLoop(LoopHandle(false)), Unreached(SpokeReject(1), [], [], {}, map[]));
    states, steps := Extend(states, steps, AtLoop(LoopRefuse),
                            Unreached(SpokeIdle, last, last, {}, map[1 := NO_TARGET.(pump := Rejected)]));
  }

  lemma DialFails() returns (states: seq<Session>, steps: seq<Step>)
    ensures Run(states, steps)
    ensures states[|steps|] == Unreached(SpokeIdle, [], [], {1}, map[1 := NO_TARGET.(pump := DialFailed)])
  {
    states, steps := OpenArrives();
    var t := NO_TARGET;
    states, steps := Extend(states, steps, AtLoop(LoopHandle(true)),
                            Unreached(SpokeIdle, [], [], {1}, map[1 := t.(pump := Dialing)]));
    states, steps := Extend(states, steps, AtPump(1, DialFail),
                            Unreached(SpokeIdle, [], [], {1}, map[1 := t.(pump := DialFailed)]));
  }

  lemma UndialedTarget() returns (states: seq<Session>, steps: seq<Step>)
    ensures Run(states, steps)
    ensures states[|steps|] == Unreached(SpokeIdle, [Frame(1, Close(false))], [Frame(1, Close(false))], {},
                                         map[1 := NO_TARGET.(pump := PumpGone(DialError))])
  {
    states, steps := DialFails();
    var last, t := [Frame(1, Close(false))], NO_TARGET;
    assert [] + last == last;
    states, steps := Extend(states, steps, AtPump(1, SendDialClose),
                            Unreached(SpokeIdle, last, last, {1}, map[1 := t.(pump := PumpLeaving(DialError))]));
    states, steps := Extend(states, steps, AtPump(1, PumpRemove),
                            Unreached(SpokeIdle, last, last, {}, map[1 := t.(pump := PumpGone(DialError))]));
  }

  lemma HubHearsClose(before: seq<Session>, past: seq<Step>, targets: map<Sid, Target>)
    returns (states: seq<Session>, steps: seq<Step>)
    requires Run(before, past)
    requires before[|past|] == Unreached(SpokeIdle, [Frame(1, Close(false))], [Frame(1, Close(false))], {}, targets)
    ensures Run(states, steps)
    ensures states[|steps|] == Unreached(SpokeIdle, [], [Frame(1, Close(false))], {}, targets)
                                 .(shared := Dropped(BySpokeClose(false)))
  {
    var last := [Frame(1, Close(false))];
    var m := Unreached(SpokeIdle, [], last, {}, targets);
    assert last[1..] == [];
    states, steps := Extend(before, past, AtRecv(RecvTake), m.(recv := HubGot(Frame(1, Close(false)))));
    states, steps := Extend(states, steps, AtRecv(RecvHandle), m.(shared := Dropped(BySpokeClose(false))));
  }

  /** A target that is unknown or cannot be dialed: the spoke says so with a full Close, and the
      hub takes the stream out of its map and its gauge. */
  lemma NoTarget(known: bool) returns (states: seq<Session>, steps: seq<Step>)
    ensures Run(states, steps)
    ensures var m := states[|steps|];
      && m.shared == HubShared(false, {}, 0, map[1 := BySpokeClose(false)]) && m.inMap == {}
      && m.targets == map[1 := Target(if known then PumpGone(DialError) else Rejected, [], [], [])]
      && m.wires.spokeSent == [Frame(1, Close(false))]
  {
    if known {
      states, steps := UndialedTarget();
    } else {
      states, steps := UnknownTarget();
    }
    states, steps := HubHearsClose(states, steps, states[|steps|].targets);
  }

  // ---- the link is down ----

  lemma OpenFails() returns (states: seq<Session>, steps: seq<Step>)
    ensures Run(states, steps)
    ensures states[|steps|] == OneConn(NO_CONN.(accept := Counted), HELD, [])
                                 .(wires := Wires([], false, [], true, [], []))
  {
    states, steps := OneConnRegistered();
    var m := OneConn(NO_CONN.(accept := Counted), HELD, []);
    states, steps := Extend(states, steps, AtAccept(1, Count), m);
    states, steps := Extend(states, steps, AtLink(DropHubTx), m.(wires := Wires([], false, [], true, [], [])));
  }

  /** An accept that cannot send its Open leaves nothing behind in map and gauge. */
  lemma OpenNotSent() returns (states: seq<Session>, steps: seq<Step>)
    ensures Run(states, steps)
    ensures var m := states[|steps|];
      && m.conns == map[1 := Conn(RolledBack, UpIdle, DnIdle, [], [], [])]
      && m.shared == HubShared(false, {}, 0, map[1 := ByRollBack]) && m.wires.hubSent == []
  {
    states, steps := OpenFails();
    var m, c := states[|steps|], NO_CONN;
    states, steps := Extend(states, steps, AtAccept(1, SendOpen("default")), SetConn(m, 1, c.(accept := OpenFailed)));
    states, steps := Extend(states, steps, AtAccept(1, RollBack),
                            SetConn(m, 1, c.(accept := RolledBack)).(shared := Dropped(ByRollBack)));
  }

  /** A session of connection 1 whose hub can no longer send. */
  function Deaf(c: Conn, h: HubShared): Session {
    OneConn(c, h, [OPEN]).(wires := Wires([OPEN], false, [], true, [OPEN], []))
  }

  lemma ChunkHeld(q: Bytes) returns (states: seq<Session>, steps: seq<Step>)
    requires IsChunk(q)
    ensures Run(states, steps) && states[|steps|] == Deaf(LIVE.(up := UpSend(q), read := q), HELD)
  {
    states, steps := OneConnOpened();
    assert [] + q == q;
    states, steps := Extend(states, steps, AtLink(DropHubTx), Deaf(LIVE, HELD));
    states, steps := Extend(states, steps, AtUp(1, Read(q)), Deaf(LIVE.(up := UpSend(q), read := q), HELD));
  }

  /** A chunk that cannot be sent ends the upstream task. */
  lemma ChunkNotSent(q: Bytes) returns (states: seq<Session>, steps: seq<Step>)
    requires IsChunk(q)
    ensures Run(states, steps)
    ensures var m := states[|steps|];
      && m.conns == map[1 := Conn(Running, UpGone(SendFailed), DnIdle, [], q, [])]
      && m.shared == HubShared(false, {}, 0, map[1 := ByUpstream]) && m.wires.hubSent == [OPEN]
  {
    states, steps := ChunkHeld(q);
    states, steps := Extend(states, steps, AtUp(1, SendData),
                            Deaf(LIVE.(up := UpLeaving(SendFailed), read := q), HELD));
    states, steps := Extend(states, steps, AtUp(1, Remove),
                            Deaf(LIVE.(up := UpGone(SendFailed), read := q), Dropped(ByUpstream)));
  }

  /** A session of connection 1 whose spoke can no longer send. */
  function Mute(inMap: set<Sid>, t: Target): Session {
    Talk(LIVE, HELD, [], [], [OPEN], [], inMap, t).(wires := Wires([], true, [], false, [OPEN], []))
  }

  lemma AnswerHeld(a: Bytes) returns (states: seq<Session>, steps: seq<Step>)
    requires IsChunk(a)
    ensures Run(states, steps) && states[|steps|] == Mute({1}, NO_TARGET.(pump := PumpSend(a), read := a))
  {
    states, steps := TargetDialed();
    assert [] + a == a;
    states, steps := Extend(states, steps, AtLink(DropSpokeTx), Mute({1}, DIALED));
    states, steps := Extend(states, steps, AtPump(1, PumpRead(a)),
                            Mute({1}, NO_TARGET.(pump := PumpSend(a), read := a)));
  }

  /** An answer that cannot be sent ends the pump. */
  lemma AnswerNotSent(a: Bytes) returns (states: seq<Session>, steps: seq<Step>)
    requires IsChunk(a)
    ensures Run(states, steps)
    ensures var m := states[|steps|];
      m.targets == map[1 := Target(PumpGone(HubGone), [], a, [])] && m.inMap == {} && m.wires.spokeSent == []
  {
    states, steps := AnswerHeld(a);
    states, steps := Extend(states, steps, AtPump(1, PumpSendData),
                            Mute({1}, NO_TARGET.(pump := PumpLeaving(HubGone), read := a)));
    states, steps := Extend(states, steps, AtPump(1, PumpRemove),
                            Mute({}, NO_TARGET.(pump := PumpGone(HubGone), read := a)));
  }
}
