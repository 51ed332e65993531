/** The hub's session registry: connections of the same spoke displace one another, and
    each cleans up when it ends. The lock is released between closing the old session and
    inserting the new one, so any number of connections may interleave there. */
module Registry {
  import opened Options

  type SpokeId = string

  type ConnId = nat

  /** A connection past its handshake: about to register, displacing, about to insert,
      inserted but not yet counted, serving, closed, cleaned up. */
  datatype Pc = Arrived | Displacing(prior: ConnId) | Replacing(prior: ConnId) | Inserted | Serving | Ended | Gone

  /** What the registry lock guards, and the gauge beside it. */
  datatype Sessions = Sessions(entries: map<SpokeId, ConnId>, connected: int)

  datatype State = State(
    sessions: Sessions,
    closed: set<ConnId>,
    spoke: map<ConnId, SpokeId>,
    pcs: map<ConnId, Pc>,
    // history: insertions that overwrote an entry, and the open sessions they overwrote
    overwrites: nat, strays: set<ConnId>)

  datatype Step =
    | Arrive(c: ConnId, id: SpokeId) | LookUp(c: ConnId) | CloseOld(c: ConnId) | Replace(c: ConnId) | Count(c: ConnId)
    | End(c: ConnId) | Cleanup(c: ConnId)

  predicate Init(s: State) {
    s == State(Sessions(map[], 0), {}, map[], map[], 0, {})
  }

  // ---- the critical sections ----

  function Put(r: Sessions, id: SpokeId, c: ConnId): Sessions {
    r.(entries := r.entries[id := c])
  }

  function Increment(r: Sessions): Sessions {
    r.(connected := r.connected + 1)
  }

  /** Cleanup removes whatever session is registered for the spoke, if that one is closed. */
  function Clean(r: Sessions, id: SpokeId, closed: set<ConnId>): Sessions {
    if id in r.entries && r.entries[id] in closed
    then Sessions(r.entries - {id}, r.connected - 1)
    else r
  }

  class SessionRegistry {
    var sessions: map<SpokeId, ConnId>
    var connected: int

    ghost function View(): Sessions
      reads this
    {
      Sessions(sessions, connected)
    }

    constructor ()
      ensures View() == Sessions(map[], 0)
    {
      sessions, connected := map[], 0;
    }

    /** First section: insert at once if the spoke has no session, else report the old one. */
    method LookUpOrInsert(id: SpokeId, c: ConnId) returns (old_: Option<ConnId>)
      modifies this`sessions
      ensures old_ == if id in old(sessions) then Some(old(sessions)[id]) else None
      ensures View() == if old_.Some? then old(View()) else Put(old(View()), id, c)
    {
      if id in sessions {
        old_ := Some(sessions[id]);
      } else {
        old_ := None;
        sessions := sessions[id := c];
      }
    }

    /** Second section of a displacement. */
    method InsertAnyway(id: SpokeId, c: ConnId)
      modifies this`sessions
      ensures View() == Put(old(View()), id, c)
    {
      sessions := sessions[id := c];
    }

    method CountConnected()
      modifies this`connected
      ensures View() == Increment(old(View()))
    {
      connected := connected + 1;
    }

    /** The registration as one connection goes through it: the session in the way is closed
        between the two sections, and the gauge follows. */
    method Connect(id: SpokeId, c: ConnId, closed: set<ConnId>)
      returns (displaced: Option<ConnId>, nowClosed: set<ConnId>)
      modifies this
      ensures displaced == if id in old(sessions) then Some(old(sessions)[id]) else None
      ensures nowClosed == if displaced.Some? then closed + {displaced.value} else closed
      ensures id in sessions && sessions[id] == c && connected == old(connected) + 1
      ensures forall other :: other != id ==>
        (other in sessions <==> other in old(sessions))
        && (other in sessions ==> sessions[other] == old(sessions)[other])
    {
      nowClosed := closed;
      displaced := LookUpOrInsert(id, c);
      if displaced.Some? {
        nowClosed := closed + {displaced.value};
        InsertAnyway(id, c);
      }
      CountConnected();
    }

    method CleanUp(id: SpokeId, closed: set<ConnId>)
      modifies this
      ensures View() == Clean(old(View()), id, closed)
      ensures var removed := id in old(sessions) && old(sessions)[id] in closed;
        && sessions == (if removed then old(sessions) - {id} else old(sessions))
        && connected == (if removed then old(connected) - 1 else old(connected))
    {
      if id in sessions && sessions[id] in closed {
        sessions := sessions - {id};
        connected := connected - 1;
      }
    }
  }

  // ---- the protocol ----

  predicate At(s: State, c: ConnId, pc: Pc) {
    c in s.pcs && s.pcs[c] == pc && c in s.spoke
  }

  predicate Can(s: State, a: Step) {
    match a
    case Arrive(c, _) => c !in s.pcs && c !in s.spoke
    case LookUp(c) => At(s, c, Arrived)
    case CloseOld(c) => c in s.pcs && s.pcs[c].Displacing? && c in s.spoke
    case Replace(c) => c in s.pcs && s.pcs[c].Replacing? && c in s.spoke
    case Count(c) => At(s, c, Inserted)
    case End(c) => At(s, c, Serving)
    case Cleanup(c) => At(s, c, Ended)
  }

  function Move(s: State, c: ConnId, pc: Pc): State {
    s.(pcs := s.pcs[c := pc])
  }

  /** An insertion, with the history of what it overwrote. */
  function Register(s: State, c: ConnId): State
    requires c in s.spoke
  {
    var id, m := s.spoke[c], s.sessions.entries;
    Move(s, c, Inserted).(
      sessions := Put(s.sessions, id, c),
      overwrites := s.overwrites + if id in m then 1 else 0,
      strays := if id in m && m[id] !in s.closed then s.strays + {m[id]} else s.strays)
  }

  function Do(s: State, a: Step): State
    requires Can(s, a)
  {
    match a
    case Arrive(c, id) => Move(s, c, Arrived).(spoke := s.spoke[c := id])
    case LookUp(c) =>
      var id := s.spoke[c];
      if id in s.sessions.entries then Move(s, c, Displacing(s.sessions.entries[id])) else Register(s, c)
    case CloseOld(c) => Move(s, c, Replacing(s.pcs[c].prior)).(closed := s.closed + {s.pcs[c].prior})
    case Replace(c) => Register(s, c)
    case Count(c) => Move(s, c, Serving).(sessions := Increment(s.sessions))
    case End(c) => Move(s, c, Ended).(closed := s.closed + {c})
    case Cleanup(c) => Move(s, c, Gone).(sessions := Clean(s.sessions, s.spoke[c], s.closed))
  }

  predicate Run(states: seq<State>, steps: seq<Step>) {
    && |states| == |steps| + 1
    && Init(states[0])
    && forall i {:trigger steps[i]} :: 0 <= i < |steps| ==>
          Can(states[i], steps[i]) && states[i + 1] == Do(states[i], steps[i])
  }

  // ---- the invariant ----

  function Uncounted(pcs: map<ConnId, Pc>): set<ConnId> {
    set c | c in pcs && pcs[c].Inserted?
  }

  predicate Registered(pc: Pc) {
    pc.Inserted? || pc.Serving?
  }

  /** Entries name connections of that spoke which have registered and not cleaned up. */
  predicate Shape(s: State) {
    && s.pcs.Keys == s.spoke.Keys
    && (forall id :: id in s.sessions.entries ==>
          var c := s.sessions.entries[id];
          c in s.pcs && s.spoke[c] == id && (Registered(s.pcs[c]) || s.pcs[c].Ended?) && c !in s.strays)
    && (forall c :: c in s.pcs && (s.pcs[c].Ended? || s.pcs[c].Gone?) ==> c in s.closed)
    && (forall c :: c in s.pcs && s.pcs[c].Replacing? ==> s.pcs[c].prior in s.closed)
    && (forall c :: c in s.pcs && s.pcs[c].Arrived? ==> c !in s.strays)
    && (forall c :: c in s.strays ==> c in s.pcs && (Registered(s.pcs[c]) || s.pcs[c].Ended? || s.pcs[c].Gone?))
  }

  /** An open session is the registered one of its spoke, unless it was overwritten open. */
  predicate OpenIsRegistered(s: State) {
    forall c :: c in s.pcs && Registered(s.pcs[c]) && c !in s.closed && c !in s.strays ==>
      c in s.spoke && s.spoke[c] in s.sessions.entries && s.sessions.entries[s.spoke[c]] == c
  }

  predicate Balanced(s: State) {
    s.sessions.connected + |Uncounted(s.pcs)| == |s.sessions.entries| + s.overwrites
  }

  predicate Inv(s: State) {
    Shape(s) && OpenIsRegistered(s) && Balanced(s)
  }

  lemma InitInv(s: State)
    requires Init(s)
    ensures Inv(s)
  {
    assert Uncounted(s.pcs) == {};
  }

  lemma RegisterShape(s: State, c: ConnId)
    requires Shape(s) && c in s.pcs && (s.pcs[c].Arrived? || s.pcs[c].Replacing?) && c !in s.strays
    ensures Shape(Register(s, c))
  {
  }

  lemma CleanupShape(s: State, c: ConnId)
    requires Shape(s) && Can(s, Cleanup(c))
    ensures Shape(Do(s, Cleanup(c)))
  {
  }

  lemma StepShape(s: State, a: Step)
    requires Shape(s) && Can(s, a)
    ensures Shape(Do(s, a))
  {
    match a
    case LookUp(c) =>
      if s.spoke[c] !in s.sessions.entries {
        RegisterShape(s, c);
      } else {
        assert Do(s, a).pcs[c].Displacing?;
      }
    case Replace(c) => RegisterShape(s, c);
    case Cleanup(c) => CleanupShape(s, c);
    case Arrive(c, id) => ArriveShape(s, c, id);
    case _ => TurnShape(s, a);
  }

  lemma ArriveShape(s: State, c: ConnId, id: SpokeId)
    requires Shape(s) && Can(s, Arrive(c, id))
    ensures Shape(Do(s, Arrive(c, id)))
  {
  }

  lemma TurnShape(s: State, a: Step)
    requires Shape(s) && Can(s, a) && (a.CloseOld? || a.Count? || a.End?)
    ensures Shape(Do(s, a))
  {
  }

  lemma StepOpen(s: State, a: Step)
    requires Shape(s) && OpenIsRegistered(s) && Can(s, a)
    ensures OpenIsRegistered(Do(s, a))
  {
  }

  lemma RegisterBalanced(s: State, c: ConnId)
    requires Balanced(s) && c in s.spoke && c in s.pcs && !s.pcs[c].Inserted?
    ensures Balanced(Register(s, c))
  {
    var n, id := Register(s, c), s.spoke[c];
    assert Uncounted(n.pcs) == Uncounted(s.pcs) + {c};
    assert n.sessions.entries.Keys == s.sessions.entries.Keys + {id};
    assert |n.sessions.entries.Keys| == |n.sessions.entries|;
  }

  lemma StepBalanced(s: State, a: Step)
    requires Balanced(s) && Can(s, a)
    ensures Balanced(Do(s, a))
  {
    var n := Do(s, a);
    match a
    case LookUp(c) =>
      if s.spoke[c] in s.sessions.entries {
        assert Uncounted(n.pcs) == Uncounted(s.pcs);
      } else {
        RegisterBalanced(s, c);
      }
    case Replace(c) => RegisterBalanced(s, c);
    case Count(c) =>
      assert c in Uncounted(s.pcs) && Uncounted(n.pcs) == Uncounted(s.pcs) - {c};
    case _ =>
      assert Uncounted(n.pcs) == Uncounted(s.pcs);
  }

  lemma {:induction false} RunInv(states: seq<State>, steps: seq<Step>, i: nat)
    requires Run(states, steps) && i < |states|
    ensures Inv(states[i])
  {
    if i == 0 {
      InitInv(states[0]);
    } else {
      var a := steps[i - 1];
      RunInv(states, steps, i - 1);
      StepShape(states[i - 1], a);
      StepOpen(states[i - 1], a);
      StepBalanced(states[i - 1], a);
    }
  }

  // ---- main results ----

  /** `connected` is the number of entries plus the number of overwriting registrations,
      up to increments still to come; so it is exact precisely in runs that overwrote none. */
  lemma ConnectedLaw(states: seq<State>, steps: seq<Step>, i: nat)
    requires Run(states, steps) && i < |states|
    ensures var s := states[i];
      && s.sessions.connected + |Uncounted(s.pcs)| == |s.sessions.entries| + s.overwrites
      && (s.sessions.connected + |Uncounted(s.pcs)| == |s.sessions.entries| <==> s.overwrites == 0)
  {
    RunInv(states, steps, i);
  }

  /** Two open sessions share a spoke only if a displacer overwrote one of them. */
  lemma AtMostOneOpen(states: seq<State>, steps: seq<Step>, i: nat, c: ConnId, d: ConnId)
    requires Run(states, steps) && i < |states| && c !in states[i].strays && d !in states[i].strays
    requires c in states[i].pcs && Registered(states[i].pcs[c]) && c !in states[i].closed
    requires d in states[i].pcs && Registered(states[i].pcs[d]) && d !in states[i].closed
    requires c in states[i].spoke && d in states[i].spoke && states[i].spoke[c] == states[i].spoke[d]
    ensures c == d
  {
    RunInv(states, steps, i);
  }

  /** Past its registration, not closed: its connection serves or is about to. */
  predicate Open(s: State, c: ConnId) {
    c in s.pcs && Registered(s.pcs[c]) && c !in s.closed
  }

  predicate IsEntry(s: State, c: ConnId) {
    c in s.spoke && s.spoke[c] in s.sessions.entries && s.sessions.entries[s.spoke[c]] == c
  }

  /** In every state of every run an open session is its spoke's registered one if and only
      if it was never overwritten while open. */
  lemma OpenIsEntryIff(states: seq<State>, steps: seq<Step>, i: nat, c: ConnId)
    requires Run(states, steps) && i < |states| && Open(states[i], c)
    ensures IsEntry(states[i], c) <==> c !in states[i].strays
  {
    RunInv(states, steps, i);
  }

  /** The insertion of a displacer whose spoke's entry is an open session. */
  predicate OverwritesOpen(s: State, a: Step) {
    && a.Replace? && a.c in s.spoke && s.spoke[a.c] in s.sessions.entries
    && s.sessions.entries[s.spoke[a.c]] !in s.closed
  }

  /** A session becomes a stray at exactly such a step, which strays the entry and no other
      session; it is then not the session the displacer closed. */
  lemma StraysGrowIff(states: seq<State>, steps: seq<Step>, i: nat)
    requires Run(states, steps) && i < |steps|
    ensures var s, a, n := states[i], steps[i], states[i + 1];
      && (n.strays != s.strays <==> OverwritesOpen(s, a))
      && s.strays <= n.strays
      && (OverwritesOpen(s, a) ==>
            var e := s.sessions.entries[s.spoke[a.c]];
            && n.strays == s.strays + {e} && Open(s, e)
            && a.c in s.pcs && s.pcs[a.c].Replacing? && e != s.pcs[a.c].prior)
  {
    RunInv(states, steps, i);
    var s, a := states[i], steps[i];
    if OverwritesOpen(s, a) {
      assert s.sessions.entries[s.spoke[a.c]] !in s.strays;
    } else if a.LookUp? {
      assert s.spoke[a.c] in s.sessions.entries || states[i + 1].strays == s.strays;
    }
  }

  /** Once registered, a session that is still open at the end of a stretch of the run is
      still its spoke's entry there, unless a displacer overwrote it on the way: no teardown,
      its predecessor's or anyone else's, evicts it. */
  lemma OpenStaysEntry(states: seq<State>, steps: seq<Step>, i: nat, j: nat, c: ConnId)
    requires Run(states, steps) && i <= j < |states|
    requires IsEntry(states[i], c) && Open(states[i], c) && c !in states[j].closed
    ensures IsEntry(states[j], c) <==> c !in states[j].strays
  {
    RegisteredUntilClosed(states, steps, i, j, c);
    OpenIsEntryIff(states, steps, j, c);
  }

  lemma {:induction false} RegisteredUntilClosed(states: seq<State>, steps: seq<Step>, i: nat, j: nat, c: ConnId)
    requires Run(states, steps) && i <= j < |states|
    requires Open(states[i], c) && c !in states[j].closed
    ensures Open(states[j], c)
  {
    if i < j {
      var s, a := states[j - 1], steps[j - 1];
      assert Can(s, a) && states[j] == Do(s, a);
      assert c !in s.closed;
      RegisteredUntilClosed(states, steps, i, j - 1, c);
      StaysRegistered(s, a, c);
    }
  }

  lemma StaysRegistered(s: State, a: Step, c: ConnId)
    requires Can(s, a) && Open(s, c) && c !in Do(s, a).closed
    ensures Open(Do(s, a), c)
  {
  }

  lemma Extend(before: seq<State>, past: seq<Step>, a: Step, s: State) returns (states: seq<State>, steps: seq<Step>)
    requires Run(before, past) && Can(before[|past|], a) && s == Do(before[|past|], a)
    ensures Run(states, steps) && states[|steps|] == s
  {
    states, steps := before + [s], past + [a];
  }

  /** Connections 1, 2 and 3 of one spoke; 2 and 3 both found 1 registered. */
  function Race(entry: ConnId, connected: int, closed: set<ConnId>, pc1: Pc, pc2: Pc, pc3: Pc,
                overwrites: nat, strays: set<ConnId>): State
  {
    State(Sessions(map["s" := entry], connected), closed, map[1 := "s", 2 := "s", 3 := "s"],
          map[1 := pc1, 2 := pc2, 3 := pc3], overwrites, strays)
  }

  lemma FirstServes() returns (states: seq<State>, steps: seq<Step>)
    ensures Run(states, steps)
    ensures states[|steps|] == State(Sessions(map["s" := 1], 1), {}, map[1 := "s"], map[1 := Serving], 0, {})
  {
    states, steps := [State(Sessions(map[], 0), {}, map[], map[], 0, {})], [];
    states, steps := Extend(states, steps, Arrive(1, "s"),
                            State(Sessions(map[], 0), {}, map[1 := "s"], map[1 := Arrived], 0, {}));
    states, steps := Extend(states, steps, LookUp(1),
                            State(Sessions(map["s" := 1], 0), {}, map[1 := "s"], map[1 := Inserted], 0, {}));
    states, steps := Extend(states, steps, Count(1),
                            State(Sessions(map["s" := 1], 1), {}, map[1 := "s"], map[1 := Serving], 0, {}));
  }

  lemma BothLookUp() returns (states: seq<State>, steps: seq<Step>)
    ensures Run(states, steps)
    ensures states[|steps|] == Race(1, 1, {}, Serving, Displacing(1), Displacing(1), 0, {})
  {
    states, steps := FirstServes();
    var s := Do(states[|steps|], Arrive(2, "s"));
    states, steps := Extend(states, steps, Arrive(2, "s"), s);
    states, steps := Extend(states, steps, Arrive(3, "s"), Race(1, 1, {}, Serving, Arrived, Arrived, 0, {}));
    states, steps := Extend(states, steps, LookUp(2), Race(1, 1, {}, Serving, Displacing(1), Arrived, 0, {}));
    states, steps := Extend(states, steps, LookUp(3), Race(1, 1, {}, Serving, Displacing(1), Displacing(1), 0, {}));
  }

  /** The race is real: two sessions of one spoke end up open at once, the gauge reads 3 for
      the single entry, and nothing is left in any connection's hands to correct it. */
  lemma ThreeWayRace() returns (states: seq<State>, steps: seq<Step>)
    ensures Run(states, steps)
    ensures states[|steps|] == Race(3, 3, {1}, Serving, Serving, Serving, 2, {2})
  {
    states, steps := BothLookUp();
    states, steps := Extend(states, steps, CloseOld(2), Race(1, 1, {1}, Serving, Replacing(1), Displacing(1), 0, {}));
    states, steps := Extend(states, steps, Replace(2), Race(2, 1, {1}, Serving, Inserted, Displacing(1), 1, {}));
    states, steps := Extend(states, steps, Count(2), Race(2, 2, {1}, Serving, Serving, Displacing(1), 1, {}));
    states, steps := Extend(states, steps, CloseOld(3), Race(2, 2, {1}, Serving, Serving, Replacing(1), 1, {}));
    states, steps := Extend(states, steps, Replace(3), Race(3, 2, {1}, Serving, Serving, Inserted, 2, {2}));
    states, steps := Extend(states, steps, Count(3), Race(3, 3, {1}, Serving, Serving, Serving, 2, {2}));
  }
}
