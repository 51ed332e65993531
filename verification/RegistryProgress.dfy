/** What the session registry comes to when no connection can do anything more by itself. */
module RegistryProgress {
  import opened Registry
  import opened Totals

  // ---- a closed entry is about to be replaced ----

  predicate Underway(pc: Pc) {
    pc.Arrived? || pc.Displacing? || pc.Replacing?
  }

  predicate Prior(pc: Pc, e: ConnId) {
    (pc.Displacing? || pc.Replacing?) && pc.prior == e
  }

  /** Connections still to be inserted are open, and displace a session of their own spoke. */
  ghost predicate Newcomers(s: State) {
    && (forall c :: c in s.closed ==> c in s.pcs && !Underway(s.pcs[c]))
    && (forall c, e :: c in s.pcs && c in s.spoke && Prior(s.pcs[c], e) ==>
          e in s.pcs && e in s.spoke && s.spoke[e] == s.spoke[c] && !Underway(s.pcs[e]))
  }

  ghost predicate ReplacedSoon(s: State, e: ConnId) {
    exists c :: c in s.pcs && s.pcs[c] == Replacing(e)
  }

  /** A registered session that is closed while its connection serves has a displacer on the way. */
  ghost predicate ClosedIsReplaced(s: State) {
    forall id :: id in s.sessions.entries && s.sessions.entries[id] in s.closed ==>
      var e := s.sessions.entries[id];
      e in s.pcs && (Registered(s.pcs[e]) ==> ReplacedSoon(s, e))
  }

  /** A step that moves connection `c` on, without a new session to displace. */
  lemma MoveNewcomers(s: State, n: State, c: ConnId, more: set<ConnId>)
    requires Newcomers(s) && c in s.pcs && c in n.pcs && n.pcs == s.pcs[c := n.pcs[c]] && n.spoke == s.spoke
    requires n.closed == s.closed + more && forall d :: d in more ==> d in n.pcs && !Underway(n.pcs[d])
    requires !Underway(s.pcs[c]) ==> !Underway(n.pcs[c])
    requires forall e :: Prior(n.pcs[c], e) ==> Prior(s.pcs[c], e)
    ensures Newcomers(n)
  {
  }

  /** One that starts to displace a session of its spoke. */
  lemma DisplaceNewcomers(s: State, n: State, c: ConnId, e: ConnId)
    requires Newcomers(s) && c in s.pcs && Underway(s.pcs[c]) && c != e
    requires n.pcs == s.pcs[c := Displacing(e)] && n.spoke == s.spoke && n.closed == s.closed
    requires c in s.spoke && e in s.spoke && s.spoke[e] == s.spoke[c] && e in s.pcs && !Underway(s.pcs[e])
    ensures Newcomers(n)
  {
    forall d, f | d in n.pcs && d in n.spoke && Prior(n.pcs[d], f)
      ensures f in n.pcs && f in n.spoke && n.spoke[f] == n.spoke[d] && !Underway(n.pcs[f])
    {
      if d != c {
        assert Prior(s.pcs[d], f);
      }
    }
  }

  /** One that arrives. */
  lemma ArriveNewcomers(s: State, n: State, c: ConnId, id: SpokeId)
    requires Newcomers(s) && c !in s.pcs && c !in s.spoke
    requires n.pcs == s.pcs[c := Arrived] && n.spoke == s.spoke[c := id] && n.closed == s.closed
    ensures Newcomers(n)
  {
    forall d, f | d in n.pcs && d in n.spoke && Prior(n.pcs[d], f)
      ensures f in n.pcs && f in n.spoke && n.spoke[f] == n.spoke[d] && !Underway(n.pcs[f])
    {
      assert d in s.pcs && Prior(s.pcs[d], f);
    }
  }

  lemma StepNewcomers(s: State, a: Step)
    requires Shape(s) && Newcomers(s) && Can(s, a)
    ensures Newcomers(Do(s, a))
  {
    var n := Do(s, a);
    if a.Arrive? {
      ArriveNewcomers(s, n, a.c, a.id);
    } else if a.LookUp? && s.spoke[a.c] in s.sessions.entries {
      DisplaceNewcomers(s, n, a.c, s.sessions.entries[s.spoke[a.c]]);
    } else {
      OtherNewcomers(s, a);
    }
  }

  lemma OtherNewcomers(s: State, a: Step)
    requires Newcomers(s) && Can(s, a) && !a.Arrive?
    requires a.LookUp? ==> s.spoke[a.c] !in s.sessions.entries
    ensures Newcomers(Do(s, a))
  {
    var n := Do(s, a);
    if a.CloseOld? {
      assert Prior(s.pcs[a.c], s.pcs[a.c].prior);
      MoveNewcomers(s, n, a.c, {s.pcs[a.c].prior});
    } else if a.End? {
      MoveNewcomers(s, n, a.c, {a.c});
    } else {
      MoveNewcomers(s, n, a.c, {});
    }
  }

  lemma ReplacementComes(s: State, n: State, e: ConnId, c: ConnId)
    requires forall d :: d in s.pcs && d != c ==> d in n.pcs && n.pcs[d] == s.pcs[d]
    requires ReplacedSoon(s, e) && (c in s.pcs && s.pcs[c] == Replacing(e) ==> c in n.pcs && n.pcs[c] == Replacing(e))
    ensures ReplacedSoon(n, e)
  {
    var d :| d in s.pcs && s.pcs[d] == Replacing(e);
    assert d in n.pcs && n.pcs[d] == Replacing(e);
  }

  lemma OthersWait(s: State, a: Step)
    requires Can(s, a)
    ensures forall d :: d in s.pcs && d != a.c ==> d in Do(s, a).pcs && Do(s, a).pcs[d] == s.pcs[d]
    ensures Do(s, a).spoke == (if a.Arrive? then s.spoke[a.c := a.id] else s.spoke)
  {
  }

  /** A displacer's insertion takes the place of the entry it displaces. */
  lemma ReplacedIsNoEntry(s: State, c: ConnId, e: ConnId)
    requires Newcomers(s) && Can(s, Replace(c)) && s.pcs[c] == Replacing(e)
    ensures e in s.spoke && !IsEntry(Do(s, Replace(c)), e)
  {
    assert Prior(s.pcs[c], e);
  }

  /** The displacer of an entry that a step leaves in place is still on its way. */
  lemma StillReplaced(s: State, a: Step, e: ConnId)
    requires Newcomers(s) && Can(s, a) && ReplacedSoon(s, e) && IsEntry(Do(s, a), e)
    ensures ReplacedSoon(Do(s, a), e)
  {
    OthersWait(s, a);
    if a.Replace? && s.pcs[a.c] == Replacing(e) {
      ReplacedIsNoEntry(s, a.c, e);
    } else {
      ReplacementComes(s, Do(s, a), e, a.c);
    }
  }

  /** A serving entry is closed only by its displacer. */
  lemma ClosedByDisplacer(s: State, a: Step, e: ConnId)
    requires Shape(s) && Can(s, a) && e in s.spoke && IsEntry(s, e)
    requires e in Do(s, a).closed && Registered(Do(s, a).pcs[e]) && !(e in s.closed && Registered(s.pcs[e]))
    ensures ReplacedSoon(Do(s, a), e)
  {
    assert Do(s, a).pcs[a.c] == Replacing(e);
  }

  /** What a step puts into the registry is open. */
  lemma NewEntryOpen(s: State, a: Step, e: ConnId)
    requires Shape(s) && Newcomers(s) && Can(s, a)
    requires e in Do(s, a).spoke && IsEntry(Do(s, a), e) && !IsEntry(s, e)
    ensures e !in Do(s, a).closed
  {
  }

  lemma StepReplaced(s: State, a: Step)
    requires Shape(s) && Newcomers(s) && ClosedIsReplaced(s) && Can(s, a)
    ensures ClosedIsReplaced(Do(s, a))
  {
    var n := Do(s, a);
    StepShape(s, a);
    forall id | id in n.sessions.entries && n.sessions.entries[id] in n.closed
      ensures n.sessions.entries[id] in n.pcs
      ensures Registered(n.pcs[n.sessions.entries[id]]) ==> ReplacedSoon(n, n.sessions.entries[id])
    {
      var e := n.sessions.entries[id];
      if !IsEntry(s, e) {
        NewEntryOpen(s, a, e);
      } else if Registered(n.pcs[e]) && e in s.closed && Registered(s.pcs[e]) {
        StillReplaced(s, a, e);
      } else if Registered(n.pcs[e]) {
        ClosedByDisplacer(s, a, e);
      }
    }
  }

  lemma {:induction false} RunReplaced(states: seq<State>, steps: seq<Step>, i: nat)
    requires Run(states, steps) && i < |states|
    ensures Newcomers(states[i]) && ClosedIsReplaced(states[i])
  {
    if i > 0 {
      assert Can(states[i - 1], steps[i - 1]) && states[i] == Do(states[i - 1], steps[i - 1]);
      RunReplaced(states, steps, i - 1);
      RunInv(states, steps, i - 1);
      StepNewcomers(states[i - 1], steps[i - 1]);
      StepReplaced(states[i - 1], steps[i - 1]);
    }
  }

  // ---- at rest ----

  /** What connections do by themselves: everything but arriving and ending. */
  predicate Internal(a: Step) {
    !a.Arrive? && !a.End?
  }

  ghost predicate AtRest(s: State) {
    forall a: Step :: Internal(a) ==> !Can(s, a)
  }

  lemma ConnAtRest(s: State, c: ConnId)
    requires AtRest(s) && c in s.pcs && c in s.spoke
    ensures s.pcs[c].Serving? || s.pcs[c].Gone?
  {
    assert !Can(s, LookUp(c)) && !Can(s, CloseOld(c)) && !Can(s, Replace(c));
    assert !Can(s, Count(c)) && !Can(s, Cleanup(c));
  }

  /** In every run: when no connection can do anything more by itself, the registry lists exactly
      the sessions that are open and were never overwritten open, and the gauge is the number of
      entries plus one for each registration that overwrote another. */
  lemma RestIsRegistered(states: seq<State>, steps: seq<Step>, i: nat, c: ConnId)
    requires Run(states, steps) && i < |states| && AtRest(states[i])
    ensures var s := states[i];
      && (IsEntry(s, c) <==> c in s.pcs && s.pcs[c].Serving? && c !in s.closed && c !in s.strays)
      && s.sessions.connected == |s.sessions.entries| + s.overwrites
  {
    var s := states[i];
    RunInv(states, steps, i);
    RunReplaced(states, steps, i);
    forall d | d in s.pcs ensures s.pcs[d].Serving? || s.pcs[d].Gone? {
      ConnAtRest(s, d);
    }
    assert Uncounted(s.pcs) == {};
    assert !ReplacedSoon(s, c);
  }

  // ---- and they come to rest ----

  function PcWork(pc: Pc): nat {
    match pc
    case Arrived => 4
    case Displacing(_) => 3
    case Replacing(_) => 2
    case Inserted | Ended => 1
    case Serving | Gone => 0
  }

  lemma StepWorks(s: State, a: Step)
    requires Can(s, a) && Internal(a)
    ensures Total(Do(s, a).pcs, PcWork) < Total(s.pcs, PcWork)
  {
    TotalUpdate(s.pcs, PcWork, a.c, Do(s, a).pcs[a.c]);
  }

  /** From state `i` to state `j` nobody came and nobody's connection ended. */
  predicate Undisturbed(steps: seq<Step>, i: int, j: int) {
    0 <= i <= j <= |steps| && forall k {:trigger steps[k]} :: i <= k < j ==> Internal(steps[k])
  }

  /** Left to themselves, connections come to rest after at most four steps each. */
  lemma {:induction false} ComesToRest(states: seq<State>, steps: seq<Step>, i: nat, j: nat)
    requires Run(states, steps) && Undisturbed(steps, i, j)
    ensures Total(states[j].pcs, PcWork) + (j - i) <= Total(states[i].pcs, PcWork)
    decreases j
  {
    if i < j {
      ComesToRest(states, steps, i, j - 1);
      assert Can(states[j - 1], steps[j - 1]) && states[j] == Do(states[j - 1], steps[j - 1]);
      StepWorks(states[j - 1], steps[j - 1]);
    }
  }

  // ---- witnesses ----

  /** A connection that comes and goes leaves nothing behind. */
  lemma ComesAndGoes() returns (states: seq<State>, steps: seq<Step>)
    ensures Run(states, steps)
    ensures states[|steps|] == State(Sessions(map[], 0), {1}, map[1 := "s"], map[1 := Gone], 0, {})
  {
    states, steps := FirstServes();
    states, steps := Extend(states, steps, End(1),
                            State(Sessions(map["s" := 1], 1), {1}, map[1 := "s"], map[1 := Ended], 0, {}));
    var none: map<SpokeId, ConnId> := map[];
    assert map["s" := 1 as ConnId] - {"s"} == none;
    states, steps := Extend(states, steps, Cleanup(1),
                            State(Sessions(none, 0), {1}, map[1 := "s"], map[1 := Gone], 0, {}));
  }

  /** Connections 1 and 2 of one spoke, the second displacing the first. */
  function Two(entry: ConnId, connected: int, closed: set<ConnId>, pc1: Pc, pc2: Pc, overwrites: nat): State {
    State(Sessions(map["s" := entry], connected), closed, map[1 := "s", 2 := "s"], map[1 := pc1, 2 := pc2],
          overwrites, {})
  }

  lemma SecondLooksUp() returns (states: seq<State>, steps: seq<Step>)
    ensures Run(states, steps) && states[|steps|] == Two(1, 1, {}, Serving, Displacing(1), 0)
  {
    states, steps := FirstServes();
    states, steps := Extend(states, steps, Arrive(2, "s"), Two(1, 1, {}, Serving, Arrived, 0));
    states, steps := Extend(states, steps, LookUp(2), Two(1, 1, {}, Serving, Displacing(1), 0));
  }

  lemma SecondServes() returns (states: seq<State>, steps: seq<Step>)
    ensures Run(states, steps) && states[|steps|] == Two(2, 2, {1}, Serving, Serving, 1)
  {
    states, steps := SecondLooksUp();
    states, steps := Extend(states, steps, CloseOld(2), Two(1, 1, {1}, Serving, Replacing(1), 0));
    states, steps := Extend(states, steps, Replace(2), Two(2, 1, {1}, Serving, Inserted, 1));
    states, steps := Extend(states, steps, Count(2), Two(2, 2, {1}, Serving, Serving, 1));
  }

  /** Two connections are enough for the gauge to be wrong for good: the second displaces the
      first, the first ends and cleans up, and the gauge reads 2 for the one entry. */
  lemma DisplacedCountsTwice() returns (states: seq<State>, steps: seq<Step>)
    ensures Run(states, steps)
    ensures states[|steps|] == Two(2, 2, {1}, Gone, Serving, 1)
  {
    states, steps := SecondServes();
    states, steps := Extend(states, steps, End(1), Two(2, 2, {1}, Ended, Serving, 1));
    states, steps := Extend(states, steps, Cleanup(1), Two(2, 2, {1}, Gone, Serving, 1));
  }
}
