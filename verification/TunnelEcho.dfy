/** The whole life of one connection, for any request and any answer: opened on both sides, the
    request delivered to the target, the answer to the client, closed from both ends. */
module TunnelEcho {
  import opened Wire
  import opened Stream
  import opened Tunnel
  import opened TunnelTheorems

  const OPEN := Frame(1, Open("default"))

  /** The session of connection 1 on a link that is up, with both receive loops between frames. */
  function Talk(c: Conn, h: HubShared, down: seq<Frame>, back: seq<Frame>, sent: seq<Frame>, answers: seq<Frame>,
                inMap: set<Sid>, t: Target): Session
  {
    Session(1, h, map[1 := c], HubIdle, Wires(down, true, back, true, sent, answers), SpokeIdle, inMap, map[1 := t])
  }

  const HELD := HubShared(false, {1}, 1, map[])

  const RELEASED := HubShared(false, {}, 0, map[1 := BySpokeClose(true)])

  // ---- each task's part ----

  lemma TargetDialed() returns (states: seq<Session>, steps: seq<Step>)
    ensures Run(states, steps)
    ensures states[|steps|] == Talk(NO_CONN.(accept := Running), HELD, [], [], [OPEN], [], {1},
                                    NO_TARGET.(pump := PumpIdle))
  {
    states, steps := OneConnOpened();
    var m := states[|steps|];
    assert [OPEN][1..] == [];
    m := m.(loop := SpokeGot(OPEN), wires := m.wires.(down := []));
    states, steps := Extend(states, steps, AtLoop(LoopTake), m);
    m := m.(loop := SpokeIdle, inMap := {1}, targets := map[1 := NO_TARGET.(pump := Dialing)]);
    states, steps := Extend(states, steps, AtLoop(LoopHandle(true)), m);
    m := m.(targets := map[1 := NO_TARGET.(pump := PumpIdle)]);
    states, steps := Extend(states, steps, AtPump(1, DialOk), m);
  }

  /** The client's bytes become a frame. */
  lemma ClientSends(before: seq<Session>, past: seq<Step>, q: Bytes) returns (states: seq<Session>, steps: seq<Step>)
    requires Run(before, past) && IsChunk(q)
    requires var m := before[|past|];
      1 in m.conns && m.conns[1].accept.Running? && m.conns[1].up.UpIdle? && m.wires.hubTx
    ensures Run(states, steps)
    ensures var m := before[|past|];
      states[|steps|] == m.(conns := m.conns[1 := m.conns[1].(read := m.conns[1].read + q)],
                            wires := m.wires.(down := m.wires.down + [Frame(1, Data(q))],
                                              hubSent := m.wires.hubSent + [Frame(1, Data(q))]))
  {
    var m := before[|past|];
    var c := m.conns[1].(up := UpSend(q), read := m.conns[1].read + q);
    states, steps := Extend(before, past, AtUp(1, Read(q)), SetConn(m, 1, c));
    states, steps := Extend(states, steps, AtUp(1, SendData),
                            SetConn(m, 1, c.(up := UpIdle)).(wires := QueueDown(m.wires, Frame(1, Data(q)))));
  }

  /** The first frame down is a payload for a stream in the map. */
  lemma SpokeReceives(before: seq<Session>, past: seq<Step>, q: Bytes)
    returns (states: seq<Session>, steps: seq<Step>)
    requires Run(before, past)
    requires var m := before[|past|];
      && m.loop.SpokeIdle? && m.wires.down == [Frame(1, Data(q))] && 1 in m.inMap
      && 1 in m.targets && m.targets[1].pump.PumpIdle? && m.targets[1].inbound == []
    ensures Run(states, steps)
    ensures var m := before[|past|];
      states[|steps|] == m.(wires := m.wires.(down := []), targets := m.targets[1 := m.targets[1].(inbound := [q])])
  {
    var m := before[|past|];
    var n := m.(wires := m.wires.(down := []));
    assert [Frame(1, Data(q))][1..] == [] && [] + [q] == [q];
    states, steps := Extend(before, past, AtLoop(LoopTake), n.(loop := SpokeGot(Frame(1, Data(q)))));
    states, steps := Extend(states, steps, AtLoop(LoopHandle(true)), n.(loop := SpokeDeliver(1, q)));
    states, steps := Extend(states, steps, AtLoop(LoopPush), SetTarget(n, 1, n.targets[1].(inbound := [q])));
  }

  lemma TargetReceives(before: seq<Session>, past: seq<Step>, q: Bytes)
    returns (states: seq<Session>, steps: seq<Step>)
    requires Run(before, past)
    requires var m := before[|past|]; 1 in m.targets && m.targets[1].pump.PumpIdle? && m.targets[1].inbound == [q]
    ensures Run(states, steps)
    ensures var m := before[|past|];
      states[|steps|]
      == m.(targets := m.targets[1 := m.targets[1].(inbound := [], written := m.targets[1].written + q)])
  {
    var m := before[|past|];
    var t := m.targets[1].(inbound := []);
    assert [q][1..] == [];
    states, steps := Extend(before, past, AtPump(1, PumpTake), SetTarget(m, 1, t.(pump := PumpWrite(q))));
    states, steps := Extend(states, steps, AtPump(1, PumpWriteOk),
                            SetTarget(m, 1, t.(pump := PumpIdle, written := t.written + q)));
  }

  lemma TargetSends(before: seq<Session>, past: seq<Step>, a: Bytes) returns (states: seq<Session>, steps: seq<Step>)
    requires Run(before, past) && IsChunk(a)
    requires var m := before[|past|]; 1 in m.targets && m.targets[1].pump.PumpIdle? && m.wires.spokeTx
    ensures Run(states, steps)
    ensures var m := before[|past|];
      states[|steps|] == m.(targets := m.targets[1 := m.targets[1].(read := m.targets[1].read + a)],
                            wires := m.wires.(back := m.wires.back + [Frame(1, Data(a))],
                                              spokeSent := m.wires.spokeSent + [Frame(1, Data(a))]))
  {
    var m := before[|past|];
    var t := m.targets[1].(pump := PumpSend(a), read := m.targets[1].read + a);
    states, steps := Extend(before, past, AtPump(1, PumpRead(a)), SetTarget(m, 1, t));
    states, steps := Extend(states, steps, AtPump(1, PumpSendData),
                            SetTarget(m, 1, t.(pump := PumpIdle)).(wires := QueueBack(m.wires, Frame(1, Data(a)))));
  }

  lemma HubReceives(before: seq<Session>, past: seq<Step>, a: Bytes) returns (states: seq<Session>, steps: seq<Step>)
    requires Run(before, past)
    requires var m := before[|past|];
      && m.recv.HubIdle? && m.wires.back == [Frame(1, Data(a))] && 1 in m.shared.streams
      && 1 in m.conns && m.conns[1].dn.DnIdle? && m.conns[1].writer == []
    ensures Run(states, steps)
    ensures var m := before[|past|];
      states[|steps|] == m.(wires := m.wires.(back := []), conns := m.conns[1 := m.conns[1].(writer := [a])])
  {
    var m := before[|past|];
    var n := m.(wires := m.wires.(back := []));
    assert [Frame(1, Data(a))][1..] == [] && [] + [a] == [a];
    states, steps := Extend(before, past, AtRecv(RecvTake), n.(recv := HubGot(Frame(1, Data(a)))));
    states, steps := Extend(states, steps, AtRecv(RecvHandle), n.(recv := HubDeliver(1, a)));
    states, steps := Extend(states, steps, AtRecv(RecvPush), SetConn(n, 1, n.conns[1].(writer := [a])));
  }

  lemma ClientReceives(before: seq<Session>, past: seq<Step>, a: Bytes)
    returns (states: seq<Session>, steps: seq<Step>)
    requires Run(before, past)
    requires var m := before[|past|];
      1 in m.conns && m.conns[1].accept.Running? && m.conns[1].dn.DnIdle? && m.conns[1].writer == [a]
    ensures Run(states, steps)
    ensures var m := before[|past|];
      states[|steps|] == m.(conns := m.conns[1 := m.conns[1].(writer := [], written := m.conns[1].written + a)])
  {
    var m := before[|past|];
    var c := m.conns[1].(writer := []);
    assert [a][1..] == [];
    states, steps := Extend(before, past, AtDn(1, Take), SetConn(m, 1, c.(dn := DnWrite(a))));
    states, steps := Extend(states, steps, AtDn(1, WriteOk),
                            SetConn(m, 1, c.(dn := DnIdle, written := c.written + a)));
  }

  lemma TargetCloses(before: seq<Session>, past: seq<Step>, c: Conn, sent: seq<Frame>, answers: seq<Frame>, t: Target)
    returns (states: seq<Session>, steps: seq<Step>)
    requires Run(before, past) && before[|past|] == Talk(c, HELD, [], [], sent, answers, {1}, t)
    requires t.pump.PumpIdle?
    ensures Run(states, steps)
    ensures states[|steps|] == Talk(c, HELD, [], [Frame(1, Close(true))], sent, answers + [Frame(1, Close(true))], {1},
                                    t.(pump := PumpLeaving(TargetEof)))
  {
    var last := Frame(1, Close(true));
    assert [] + [last] == [last];
    states, steps := Extend(before, past, AtPump(1, PumpReadEnd),
                            Talk(c, HELD, [], [], sent, answers, {1}, t.(pump := PumpEof)));
    states, steps := Extend(states, steps, AtPump(1, PumpSendEof),
                            Talk(c, HELD, [], [last], sent, answers + [last], {1},
                                 t.(pump := PumpLeaving(TargetEof))));
  }

  /** The target's end of file takes the stream out of both maps and ends the hub's writer. */
  lemma TargetEnds(before: seq<Session>, past: seq<Step>, c: Conn, sent: seq<Frame>, answers: seq<Frame>, t: Target)
    returns (states: seq<Session>, steps: seq<Step>)
    requires Run(before, past) && before[|past|] == Talk(c, HELD, [], [], sent, answers, {1}, t)
    requires t.pump.PumpIdle?
    ensures Run(states, steps)
    ensures states[|steps|] == Talk(c, HELD, [], [Frame(1, Close(true))], sent, answers + [Frame(1, Close(true))], {},
                                    t.(pump := PumpGone(TargetEof)))
  {
    var last := Frame(1, Close(true));
    states, steps := TargetCloses(before, past, c, sent, answers, t);
    states, steps := Extend(states, steps, AtPump(1, PumpRemove),
                            Talk(c, HELD, [], [last], sent, answers + [last], {}, t.(pump := PumpGone(TargetEof))));
  }

  lemma HubCloses(before: seq<Session>, past: seq<Step>, c: Conn, sent: seq<Frame>, answers: seq<Frame>, t: Target)
    returns (states: seq<Session>, steps: seq<Step>)
    requires Run(before, past)
    requires before[|past|] == Talk(c, HELD, [], [Frame(1, Close(true))], sent, answers, {}, t)
    requires c.accept.Running? && c.dn.DnIdle? && c.writer == []
    ensures Run(states, steps)
    ensures states[|steps|] == Talk(c.(dn := DnGone(Drained)), RELEASED, [], [], sent, answers, {}, t)
  {
    var m := Talk(c, HELD, [], [], sent, answers, {}, t);
    assert [Frame(1, Close(true))][1..] == [];
    states, steps := Extend(before, past, AtRecv(RecvTake), m.(recv := HubGot(Frame(1, Close(true)))));
    states, steps := Extend(states, steps, AtRecv(RecvHandle), Talk(c, RELEASED, [], [], sent, answers, {}, t));
    states, steps := WriterEnds(states, steps, c, sent, answers, t);
  }

  lemma WriterEnds(before: seq<Session>, past: seq<Step>, c: Conn, sent: seq<Frame>, answers: seq<Frame>, t: Target)
    returns (states: seq<Session>, steps: seq<Step>)
    requires Run(before, past) && before[|past|] == Talk(c, RELEASED, [], [], sent, answers, {}, t)
    requires c.accept.Running? && c.dn.DnIdle? && c.writer == []
    ensures Run(states, steps)
    ensures states[|steps|] == Talk(c.(dn := DnGone(Drained)), RELEASED, [], [], sent, answers, {}, t)
  {
    states, steps := Extend(before, past, AtDn(1, End),
                            Talk(c.(dn := DnClosing(Drained)), RELEASED, [], [], sent, answers, {}, t));
    states, steps := Extend(states, steps, AtDn(1, Exit),
                            Talk(c.(dn := DnGone(Drained)), RELEASED, [], [], sent, answers, {}, t));
  }

  /** The client's end of file ends the upstream task. */
  lemma ClientEnds(before: seq<Session>, past: seq<Step>, c: Conn, sent: seq<Frame>, answers: seq<Frame>, t: Target)
    returns (states: seq<Session>, steps: seq<Step>)
    requires Run(before, past) && before[|past|] == Talk(c, RELEASED, [], [], sent, answers, {}, t)
    requires c.accept.Running? && c.up.UpIdle?
    ensures Run(states, steps)
    ensures states[|steps|] == Talk(c.(up := UpGone(Eof)), RELEASED, [Frame(1, Close(true))], [],
                                    sent + [Frame(1, Close(true))], answers, {}, t)
  {
    var last := Frame(1, Close(true));
    assert [] + [last] == [last];
    states, steps := Extend(before, past, AtUp(1, ReadEof),
                            Talk(c.(up := UpEof), RELEASED, [], [], sent, answers, {}, t));
    states, steps := Extend(states, steps, AtUp(1, SendClose),
                            Talk(c.(up := UpLeaving(Eof)), RELEASED, [last], [], sent + [last], answers, {}, t));
    states, steps := Extend(states, steps, AtUp(1, Remove),
                            Talk(c.(up := UpGone(Eof)), RELEASED, [last], [], sent + [last], answers, {}, t));
  }

  lemma SpokeDiscards(before: seq<Session>, past: seq<Step>, c: Conn, sent: seq<Frame>, answers: seq<Frame>, t: Target)
    returns (states: seq<Session>, steps: seq<Step>)
    requires Run(before, past)
    requires before[|past|] == Talk(c, RELEASED, [Frame(1, Close(true))], [], sent, answers, {}, t)
    ensures Run(states, steps) && states[|steps|] == Talk(c, RELEASED, [], [], sent, answers, {}, t)
  {
    var m := Talk(c, RELEASED, [], [], sent, answers, {}, t);
    assert [Frame(1, Close(true))][1..] == [];
    states, steps := Extend(before, past, AtLoop(LoopTake), m.(loop := SpokeGot(Frame(1, Close(true)))));
    states, steps := Extend(states, steps, AtLoop(LoopHandle(true)), m);
  }

  // ---- put together ----

  lemma RequestDelivered(q: Bytes) returns (states: seq<Session>, steps: seq<Step>)
    requires IsChunk(q)
    ensures Run(states, steps)
    ensures states[|steps|] == Talk(NO_CONN.(accept := Running, read := q), HELD, [], [], [OPEN, Frame(1, Data(q))], [],
                                    {1}, NO_TARGET.(pump := PumpIdle, written := q))
  {
    states, steps := TargetDialed();
    states, steps := ClientSends(states, steps, q);
    assert [] + q == q && [] + [Frame(1, Data(q))] == [Frame(1, Data(q))];
    states, steps := SpokeReceives(states, steps, q);
    states, steps := TargetReceives(states, steps, q);
  }

  lemma AnswerDelivered(q: Bytes, a: Bytes) returns (states: seq<Session>, steps: seq<Step>)
    requires IsChunk(q) && IsChunk(a)
    ensures Run(states, steps)
    ensures states[|steps|]
         == Talk(NO_CONN.(accept := Running, read := q, written := a), HELD, [], [], [OPEN, Frame(1, Data(q))],
                 [Frame(1, Data(a))], {1}, NO_TARGET.(pump := PumpIdle, written := q, read := a))
  {
    states, steps := RequestDelivered(q);
    states, steps := TargetSends(states, steps, a);
    assert [] + a == a && [] + [Frame(1, Data(a))] == [Frame(1, Data(a))];
    states, steps := HubReceives(states, steps, a);
    states, steps := ClientReceives(states, steps, a);
  }
  /** There is a run in which the request reaches the target and the answer the client, whatever
      they are, and after which nothing is left of the connection but its record: both maps are
      empty, the gauge is back at zero, both queues are empty and all four tasks have ended. */
  lemma EchoRun(q: Bytes, a: Bytes) returns (states: seq<Session>, steps: seq<Step>)
    requires IsChunk(q) && IsChunk(a)
    ensures Run(states, steps)
    ensures var m := states[|steps|];
      && m.conns == map[1 := Conn(Running, UpGone(Eof), DnGone(Drained), [], q, a)]
      && m.targets == map[1 := Target(PumpGone(TargetEof), [], a, q)]
      && m.shared == HubShared(false, {}, 0, map[1 := BySpokeClose(true)]) && m.inMap == {}
      && m.wires == Wires([], true, [], true, [OPEN, Frame(1, Data(q)), Frame(1, Close(true))],
                          [Frame(1, Data(a)), Frame(1, Close(true))])
      && m.recv.HubIdle? && m.loop.SpokeIdle?
  {
    states, steps := AnswerDelivered(q, a);
    var c := NO_CONN.(accept := Running, read := q, written := a);
    var t := NO_TARGET.(pump := PumpIdle, written := q, read := a);
    var sent, answers, last := [OPEN, Frame(1, Data(q))], [Frame(1, Data(a))], [Frame(1, Close(true))];
    assert sent + last == [OPEN, Frame(1, Data(q)), Frame(1, Close(true))];
    assert answers + last == [Frame(1, Data(a)), Frame(1, Close(true))];
    states, steps := TargetEnds(states, steps, c, sent, answers, t);
    var gone, ended := t.(pump := PumpGone(TargetEof)), c.(dn := DnGone(Drained));
    states, steps := HubCloses(states, steps, c, sent, answers + last, gone);
    states, steps := ClientEnds(states, steps, ended, sent, answers + last, gone);
    states, steps := SpokeDiscards(states, steps, ended.(up := UpGone(Eof)), sent + last, answers + last, gone);
  }
  // ---- a client that ends first ----

  /** The session after the client's end of file; the request is delivered, the Close is not. */
  function Ending(q: Bytes, down: seq<Frame>, loop: SpokeLoop, inMap: set<Sid>, t: Target): Session {
    Session(1, HubShared(false, {}, 0, map[1 := ByUpstream]),
            map[1 := NO_CONN.(accept := Running, up := UpGone(Eof), read := q)], HubIdle,
            Wires(down, true, [], true, [OPEN, Frame(1, Data(q)), Frame(1, Close(true))], []), loop, inMap, map[1 := t])
  }

  lemma ClientSendsEnd(q: Bytes) returns (states: seq<Session>, steps: seq<Step>)
    requires IsChunk(q)
    ensures Run(states, steps)
    ensures states[|steps|] == Talk(NO_CONN.(accept := Running, up := UpEof, read := q), HELD, [], [],
                                    [OPEN, Frame(1, Data(q))], [], {1}, NO_TARGET.(pump := PumpIdle, written := q))
  {
    states, steps := RequestDelivered(q);
    states, steps := Extend(states, steps, AtUp(1, ReadEof),
                            Talk(NO_CONN.(accept := Running, up := UpEof, read := q), HELD, [], [],
                                 [OPEN, Frame(1, Data(q))], [], {1}, NO_TARGET.(pump := PumpIdle, written := q)));
  }

  lemma ClientEndSent(q: Bytes) returns (states: seq<Session>, steps: seq<Step>)
    requires IsChunk(q)
    ensures Run(states, steps)
    ensures states[|steps|]
         == Talk(NO_CONN.(accept := Running, up := UpLeaving(Eof), read := q), HELD, [Frame(1, Close(true))], [],
                 [OPEN, Frame(1, Data(q)), Frame(1, Close(true))], [], {1}, NO_TARGET.(pump := PumpIdle, written := q))
  {
    states, steps := ClientSendsEnd(q);
    var sent, last := [OPEN, Frame(1, Data(q))], Frame(1, Close(true));
    assert [] + [last] == [last] && sent + [last] == [OPEN, Frame(1, Data(q)), last];
    states, steps := Extend(states, steps, AtUp(1, SendClose),
                            Talk(NO_CONN.(accept := Running, up := UpLeaving(Eof), read := q), HELD, [last], [],
                                 sent + [last], [], {1}, NO_TARGET.(pump := PumpIdle, written := q)));
  }

  lemma ClientEndsFirst(q: Bytes) returns (states: seq<Session>, steps: seq<Step>)
    requires IsChunk(q)
    ensures Run(states, steps)
    ensures states[|steps|]
         == Ending(q, [Frame(1, Close(true))], SpokeIdle, {1}, NO_TARGET.(pump := PumpIdle, written := q))
  {
    states, steps := ClientEndSent(q);
    states, steps := Extend(states, steps, AtUp(1, Remove),
                            Ending(q, [Frame(1, Close(true))], SpokeIdle, {1},
                                   NO_TARGET.(pump := PumpIdle, written := q)));
  }

  lemma SpokeHearsClose(q: Bytes) returns (states: seq<Session>, steps: seq<Step>)
    requires IsChunk(q)
    ensures Run(states, steps)
    ensures states[|steps|] == Ending(q, [], SpokeIdle, {}, NO_TARGET.(pump := PumpIdle, written := q))
  {
    states, steps := ClientEndsFirst(q);
    var t := NO_TARGET.(pump := PumpIdle, written := q);
    assert [Frame(1, Close(true))][1..] == [];
    states, steps := Extend(states, steps, AtLoop(LoopTake), Ending(q, [], SpokeGot(Frame(1, Close(true))), {1}, t));
    states, steps := Extend(states, steps, AtLoop(LoopHandle(true)), Ending(q, [], SpokeIdle, {}, t));
  }

  /** A client that sends its request and ends: the target gets all of it, and then its end. */
  lemma RequestRun(q: Bytes) returns (states: seq<Session>, steps: seq<Step>)
    requires IsChunk(q)
    ensures Run(states, steps)
    ensures var m := states[|steps|];
      && m.targets == map[1 := Target(PumpGone(HubClosed), [], [], q)] && m.inMap == {}
      && m.conns.Keys == {1} && m.conns[1].up == UpGone(Eof) && m.conns[1].read == q
  {
    states, steps := SpokeHearsClose(q);
    var t := NO_TARGET.(written := q);
    states, steps := Extend(states, steps, AtPump(1, PumpNone),
                            Ending(q, [], SpokeIdle, {}, t.(pump := PumpLeaving(HubClosed))));
    states, steps := Extend(states, steps, AtPump(1, PumpRemove),
                            Ending(q, [], SpokeIdle, {}, t.(pump := PumpGone(HubClosed))));
  }
}
