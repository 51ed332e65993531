/** The sweep that reports how many builds ran at once within a time window. */
module Peak {
  import opened Options

  /** Start and end in milliseconds; a build that has not ended runs until now. */
  datatype Build = Build(start: Option<int>, end: Option<int>)

  datatype Event = Event(at: int, delta: int)

  function Max(a: int, b: int): int {
    if a > b then a else b
  }

  function EndOf(b: Build, now: int): int {
    if b.end.Some? then b.end.value else now
  }

  /** Started, and not over before the window opens. */
  predicate InWindow(b: Build, window: int, now: int) {
    b.start.Some? && EndOf(b, now) >= window
  }

  function Events(builds: seq<Build>, window: int, now: int): seq<Event> {
    if builds == [] then []
    else
      var b := builds[|builds| - 1];
      Events(builds[..|builds| - 1], window, now)
      + if InWindow(b, window, now)
        then [Event(Max(b.start.value, window), 1), Event(EndOf(b, now), -1)]
        else []
  }

  /** The comparator: earlier first, and at equal times starts before ends. */
  predicate Before(a: Event, b: Event) {
    a.at < b.at || (a.at == b.at && a.delta >= b.delta)
  }

  predicate Sorted(es: seq<Event>) {
    forall i, j :: 0 <= i < j < |es| ==> Before(es[i], es[j])
  }

  function Place(e: Event, es: seq<Event>): seq<Event> {
    if es == [] then [e]
    else if Before(es[|es| - 1], e) then es + [e]
    else Place(e, es[..|es| - 1]) + [es[|es| - 1]]
  }

  /** Sorting by the comparator; `SortIsTheOnlyOne` shows that every sort gives this sequence. */
  function Sort(es: seq<Event>): seq<Event> {
    if es == [] then [] else Place(es[|es| - 1], Sort(es[..|es| - 1]))
  }

  function Sum(es: seq<Event>): int {
    if es == [] then 0 else Sum(es[..|es| - 1]) + es[|es| - 1].delta
  }

  /** The largest running sum, at least zero. */
  function Best(es: seq<Event>): nat {
    if es == [] then 0 else Max(Best(es[..|es| - 1]), Sum(es))
  }

  method ComputePeak(builds: seq<Build>, window: int, now: int) returns (best: int)
    ensures best == Best(Sort(Events(builds, window, now)))
    ensures forall u: int :: Containing(builds, window, now, u) - Inverted(builds, window, now, u) <= best
    ensures best == 0 || exists t: int :: Containing(builds, window, now, t) - Inverted(builds, window, now, t) == best
    ensures forall u: int {:trigger RunningAt(builds, window, now, u)} ::
      |RunningAt(builds, window, now, u)| <= best + |HidersAt(builds, window, now, u)|
  {
    ghost var t := PeakLaw(builds, window, now);
    forall u: int
      ensures |RunningAt(builds, window, now, u)| == Containing(builds, window, now, u)
      ensures |HidersAt(builds, window, now, u)| == Inverted(builds, window, now, u)
    {
      CountsAreSizes(builds, window, now, u);
    }
    best := Sweep(builds, window, now);
    assert Containing(builds, window, now, t) - Inverted(builds, window, now, t) <= best;
  }

  /** The computation: collect, sort, and run through the events. */
  method Sweep(builds: seq<Build>, window: int, now: int) returns (best: int)
    ensures best == Best(Sort(Events(builds, window, now)))
  {
    var events: seq<Event> := [];
    var i := 0;
    while i < |builds|
      invariant i <= |builds| && events == Events(builds[..i], window, now)
    {
      assert builds[..i + 1][..i] == builds[..i];
      var b := builds[i];
      i := i + 1;
      if b.start.Some? {
        var end := if b.end.Some? then b.end.value else now;
        if end >= window {
          events := events + [Event(Max(b.start.value, window), 1)];
          events := events + [Event(end, -1)];
        }
      }
    }
    assert builds[..i] == builds;
    events := Sort(events);
    var cur := 0;
    best := 0;
    i := 0;
    while i < |events|
      invariant i <= |events| && cur == Sum(events[..i]) && best == Best(events[..i])
    {
      assert events[..i + 1][..i] == events[..i];
      cur := cur + events[i].delta;
      if cur > best {
        best := cur;
      }
      i := i + 1;
    }
    assert events[..i] == events;
  }

  // ---- what the sweep measures ----

  /** The events that have taken effect at instant `t`: starts up to t, ends before t. */
  predicate Effective(e: Event, t: int) {
    if e.delta > 0 then e.at <= t else e.at < t
  }

  function Net(es: seq<Event>, t: int): int {
    if es == [] then 0
    else Net(es[..|es| - 1], t) + if Effective(es[|es| - 1], t) then es[|es| - 1].delta else 0
  }

  /** Builds whose clamped, closed interval contains `t`. */
  function Containing(builds: seq<Build>, window: int, now: int, t: int): nat {
    if builds == [] then 0
    else
      var b := builds[|builds| - 1];
      Containing(builds[..|builds| - 1], window, now, t)
      + if InWindow(b, window, now) && Max(b.start.value, window) <= t <= EndOf(b, now) then 1 else 0
  }

  /** Builds recorded as ending before they start, with `t` strictly between. */
  function Inverted(builds: seq<Build>, window: int, now: int, t: int): nat {
    if builds == [] then 0
    else
      var b := builds[|builds| - 1];
      Inverted(builds[..|builds| - 1], window, now, t)
      + if InWindow(b, window, now) && EndOf(b, now) < t < Max(b.start.value, window) then 1 else 0
  }

  /** The build is under way at `t`, seen through the window: it has started, and it has not ended
      before; a build without an end runs until now. */
  predicate RunsAt(b: Build, window: int, now: int, t: int) {
    match b
    case Build(Some(start), Some(end)) => start <= t && window <= t <= end
    case Build(Some(start), None) => start <= t && window <= t <= now
    case Build(None, _) => false
  }

  /** The build is recorded as ending inside the window, and after `t` as starting. */
  predicate HiddenAt(b: Build, window: int, now: int, t: int) {
    match b
    case Build(Some(start), Some(end)) => window <= end < t < start
    case Build(Some(start), None) => window <= now < t < start
    case Build(None, _) => false
  }

  function RunningAt(builds: seq<Build>, window: int, now: int, t: int): set<int> {
    set i | 0 <= i < |builds| && RunsAt(builds[i], window, now, t)
  }

  function HidersAt(builds: seq<Build>, window: int, now: int, t: int): set<int> {
    set i | 0 <= i < |builds| && HiddenAt(builds[i], window, now, t)
  }

  /** The two counts are the numbers of these builds. */
  lemma {:induction false} CountsAreSizes(builds: seq<Build>, window: int, now: int, t: int)
    ensures Containing(builds, window, now, t) == |RunningAt(builds, window, now, t)|
    ensures Inverted(builds, window, now, t) == |HidersAt(builds, window, now, t)|
  {
    if builds != [] {
      var n := |builds| - 1;
      CountsAreSizes(builds[..n], window, now, t);
      OneBuildMore(RunningAt(builds[..n], window, now, t), RunningAt(builds, window, now, t), n,
                   RunsAt(builds[n], window, now, t));
      OneBuildMore(HidersAt(builds[..n], window, now, t), HidersAt(builds, window, now, t), n,
                   HiddenAt(builds[n], window, now, t));
    }
  }

  lemma OneBuildMore(before: set<int>, after: set<int>, n: int, more: bool)
    requires n !in before && after == (if more then before + {n} else before)
    ensures |after| == |before| + if more then 1 else 0
  {
  }

  lemma {:induction false} NetAppend(es: seq<Event>, more: seq<Event>, t: int)
    ensures Net(es + more, t) == Net(es, t) + Net(more, t)
  {
    if more == [] {
      assert es + more == es;
    } else {
      NetAppend(es, more[..|more| - 1], t);
      assert (es + more)[..|es + more| - 1] == es + more[..|more| - 1];
    }
  }

  lemma {:induction false} NetOfBuilds(builds: seq<Build>, window: int, now: int, t: int)
    ensures Net(Events(builds, window, now), t)
         == Containing(builds, window, now, t) - Inverted(builds, window, now, t)
  {
    if builds != [] {
      var front, b := builds[..|builds| - 1], builds[|builds| - 1];
      NetOfBuilds(front, window, now, t);
      if InWindow(b, window, now) {
        var up, down := Event(Max(b.start.value, window), 1), Event(EndOf(b, now), -1);
        NetAppend(Events(front, window, now), [up, down], t);
        NetOfPair(up, down, t);
      } else {
        assert Events(builds, window, now) == Events(front, window, now);
      }
    }
  }

  lemma NetOfPair(a: Event, b: Event, t: int)
    ensures Net([a, b], t)
         == (if Effective(a, t) then a.delta else 0) + (if Effective(b, t) then b.delta else 0)
  {
    assert [a, b][..1] == [a] && [a][..0] == [];
    assert Net([a], t) == if Effective(a, t) then a.delta else 0;
  }

  // ---- sorting ----

  lemma {:induction false} PlaceMembers(e: Event, es: seq<Event>, i: nat)
    requires i < |Place(e, es)|
    ensures Place(e, es)[i] == e || Place(e, es)[i] in es
  {
    if es != [] && !Before(es[|es| - 1], e) && i < |Place(e, es)| - 1 {
      PlaceMembers(e, es[..|es| - 1], i);
    }
  }

  lemma {:induction false} PlaceSorted(e: Event, es: seq<Event>)
    requires Sorted(es)
    ensures Sorted(Place(e, es))
  {
    if es != [] && !Before(es[|es| - 1], e) {
      var front, last := es[..|es| - 1], es[|es| - 1];
      PlaceSorted(e, front);
      forall i | 0 <= i < |Place(e, front)| ensures Before(Place(e, front)[i], last) {
        PlaceMembers(e, front, i);
      }
    }
  }

  lemma NetSnoc(es: seq<Event>, e: Event, t: int)
    ensures Net(es + [e], t) == Net(es, t) + if Effective(e, t) then e.delta else 0
  {
    assert (es + [e])[..|es|] == es;
  }

  lemma {:induction false} PlaceNet(e: Event, es: seq<Event>, t: int)
    ensures Net(Place(e, es), t) == Net(es, t) + if Effective(e, t) then e.delta else 0
  {
    if es == [] {
      assert [e][..0] == [] && Net([e], t) == Net([], t) + if Effective(e, t) then e.delta else 0;
    } else if Before(es[|es| - 1], e) {
      NetSnoc(es, e, t);
    } else {
      PlaceNet(e, es[..|es| - 1], t);
      NetSnoc(Place(e, es[..|es| - 1]), es[|es| - 1], t);
    }
  }

  lemma {:induction false} SortSorted(es: seq<Event>)
    ensures Sorted(Sort(es))
  {
    if es != [] {
      SortSorted(es[..|es| - 1]);
      PlaceSorted(es[|es| - 1], Sort(es[..|es| - 1]));
    }
  }

  lemma {:induction false} SortNet(es: seq<Event>, t: int)
    ensures Net(Sort(es), t) == Net(es, t)
  {
    if es != [] {
      SortNet(es[..|es| - 1], t);
      PlaceNet(es[|es| - 1], Sort(es[..|es| - 1]), t);
    }
  }

  lemma MultisetSnoc(front: seq<Event>, last: Event, es: seq<Event>)
    requires es != [] && front == es[..|es| - 1] && last == es[|es| - 1]
    ensures multiset(es) == multiset(front) + multiset{last}
  {
    assert es == front + [last];
  }

  lemma {:induction false} PlaceKeeps(e: Event, es: seq<Event>)
    ensures multiset(Place(e, es)) == multiset(es) + multiset{e}
  {
    if es != [] && !Before(es[|es| - 1], e) {
      PlaceKeeps(e, es[..|es| - 1]);
      MultisetSnoc(es[..|es| - 1], es[|es| - 1], es);
    }
  }

  lemma {:induction false} SortKeeps(es: seq<Event>)
    ensures multiset(Sort(es)) == multiset(es)
  {
    if es != [] {
      SortKeeps(es[..|es| - 1]);
      PlaceKeeps(es[|es| - 1], Sort(es[..|es| - 1]));
      MultisetSnoc(es[..|es| - 1], es[|es| - 1], es);
    }
  }

  lemma LastIsLast(es: seq<Event>, x: Event)
    requires Sorted(es) && es != [] && x in es
    ensures Before(x, es[|es| - 1]) || x == es[|es| - 1]
  {
  }

  lemma DropLast(es: seq<Event>)
    requires es != []
    ensures multiset(es[..|es| - 1]) == multiset(es) - multiset{es[|es| - 1]}
    ensures es == es[..|es| - 1] + [es[|es| - 1]]
  {
    assert es == es[..|es| - 1] + [es[|es| - 1]];
  }

  lemma {:induction false} SortedAgree(a: seq<Event>, b: seq<Event>)
    requires Sorted(a) && Sorted(b) && multiset(a) == multiset(b)
    ensures a == b
  {
    if a == [] {
      assert |multiset(b)| == 0;
    } else {
      assert b != [] by { assert a[0] in multiset(b); }
      var x, y := a[|a| - 1], b[|b| - 1];
      assert x in multiset(b) && y in multiset(a);
      LastIsLast(a, y);
      LastIsLast(b, x);
      assert x == y;
      DropLast(a);
      DropLast(b);
      SortedAgree(a[..|a| - 1], b[..|b| - 1]);
    }
  }

  /** The comparator orders every two different events, so any sort of the same events,
      stable or not, gives the sequence the sweep is modelled with. */
  lemma SortIsTheOnlyOne(es: seq<Event>, sorted: seq<Event>)
    requires Sorted(sorted) && multiset(sorted) == multiset(es)
    ensures sorted == Sort(es)
  {
    SortSorted(es);
    SortKeeps(es);
    SortedAgree(sorted, Sort(es));
  }

  // ---- running sums against instants ----

  /** Every instant's count is a running sum. */
  lemma {:induction false} NetIsReached(es: seq<Event>, t: int)
    requires Sorted(es)
    ensures Net(es, t) <= Best(es)
  {
    if es != [] {
      if Effective(es[|es| - 1], t) {
        AllEffective(es, t);
      } else {
        NetIsReached(es[..|es| - 1], t);
      }
    }
  }

  lemma {:induction false} AllEffective(es: seq<Event>, t: int)
    requires Sorted(es) && es != [] && Effective(es[|es| - 1], t)
    ensures Net(es, t) == Sum(es)
  {
    var front := es[..|es| - 1];
    if front != [] {
      assert Before(es[|es| - 2], es[|es| - 1]);
      assert front[|front| - 1] == es[|es| - 2];
      AllEffective(front, t);
    }
  }

  predicate UnitDeltas(es: seq<Event>) {
    forall i :: 0 <= i < |es| ==> es[i].delta == 1 || es[i].delta == -1
  }

  /** Events at or after `t` add nothing negative to the count at `t`. */
  lemma {:induction false} LaterOnlyAdds(es: seq<Event>, t: int)
    requires UnitDeltas(es) && forall i :: 0 <= i < |es| ==> es[i].at >= t
    ensures Net(es, t) >= 0
  {
    if es != [] {
      LaterOnlyAdds(es[..|es| - 1], t);
    }
  }

  /** Every running sum stays below the count at some instant, or below zero. */
  lemma {:induction false} SumIsSeen(es: seq<Event>, k: nat) returns (t: int)
    requires Sorted(es) && UnitDeltas(es) && k <= |es|
    ensures Sum(es[..k]) <= Max(0, Net(es, t))
  {
    t := 0;
    if k > 0 {
      assert es[..k][..k - 1] == es[..k - 1];
      if es[k - 1].delta == 1 {
        t := es[k - 1].at;
        AllEffective(es[..k], t);
        LaterOnlyAdds(es[k..], t);
        NetAppend(es[..k], es[k..], t);
        assert es[..k] + es[k..] == es;
      } else {
        t := SumIsSeen(es, k - 1);
      }
    }
  }

  lemma {:induction false} BestIsSeen(es: seq<Event>, k: nat) returns (t: int)
    requires Sorted(es) && UnitDeltas(es) && k <= |es|
    ensures Best(es[..k]) <= Max(0, Net(es, t))
  {
    t := 0;
    if k > 0 {
      assert es[..k][..k - 1] == es[..k - 1];
      if Sum(es[..k]) > Best(es[..k - 1]) {
        t := SumIsSeen(es, k);
      } else {
        t := BestIsSeen(es, k - 1);
      }
    }
  }

  lemma {:induction false} PlaceUnits(e: Event, es: seq<Event>)
    requires UnitDeltas(es) && UnitDeltas([e])
    ensures UnitDeltas(Place(e, es))
  {
    if es != [] && !Before(es[|es| - 1], e) {
      PlaceUnits(e, es[..|es| - 1]);
    }
  }

  lemma {:induction false} SortUnits(es: seq<Event>)
    requires UnitDeltas(es)
    ensures UnitDeltas(Sort(es))
  {
    if es != [] {
      SortUnits(es[..|es| - 1]);
      assert [es[|es| - 1]][0] == es[|es| - 1];
      PlaceUnits(es[|es| - 1], Sort(es[..|es| - 1]));
    }
  }

  lemma {:induction false} EventsUnits(builds: seq<Build>, window: int, now: int)
    ensures UnitDeltas(Events(builds, window, now))
  {
    if builds != [] {
      EventsUnits(builds[..|builds| - 1], window, now);
    }
  }

  // ---- main results ----

  predicate NoneInverted(builds: seq<Build>, now: int) {
    forall i :: 0 <= i < |builds| && builds[i].start.Some? ==> builds[i].start.value <= EndOf(builds[i], now)
  }

  /** For all builds whatever, the peak is the largest value over all instants of builds
      containing the instant less inverted builds around it, or zero. */
  lemma PeakLaw(builds: seq<Build>, window: int, now: int) returns (t: int)
    ensures var best := Best(Sort(Events(builds, window, now)));
      && (forall u: int :: Containing(builds, window, now, u) - Inverted(builds, window, now, u) <= best)
      && 0 <= best <= Max(0, Containing(builds, window, now, t) - Inverted(builds, window, now, t))
  {
    var events := Events(builds, window, now);
    SortSorted(events);
    EventsUnits(builds, window, now);
    SortUnits(events);
    forall u: int ensures Containing(builds, window, now, u) - Inverted(builds, window, now, u) <= Best(Sort(events)) {
      NetOfBuilds(builds, window, now, u);
      SortNet(events, u);
      NetIsReached(Sort(events), u);
    }
    var s := Sort(events);
    assert s[..|s|] == s;
    t := BestIsSeen(s, |s|);
    NetOfBuilds(builds, window, now, t);
    SortNet(events, t);
  }

  lemma {:induction false} NoInversions(builds: seq<Build>, window: int, now: int, t: int)
    requires NoneInverted(builds, now)
    ensures Inverted(builds, window, now, t) == 0
  {
    if builds != [] {
      NoInversions(builds[..|builds| - 1], window, now, t);
    }
  }

  /** When every build ends no earlier than it starts, the peak is exactly the largest
      number of builds whose interval contains one instant. */
  lemma PeakIsMaximum(builds: seq<Build>, window: int, now: int) returns (t: int)
    requires NoneInverted(builds, now)
    ensures var best := Best(Sort(Events(builds, window, now)));
      && (forall u: int :: Containing(builds, window, now, u) <= best)
      && Containing(builds, window, now, t) == best
  {
    t := PeakLaw(builds, window, now);
    forall u: int ensures Inverted(builds, window, now, u) == 0 {
      NoInversions(builds, window, now, u);
    }
  }

  /** No instant lies in more intervals than `t`. */
  ghost predicate Busiest(builds: seq<Build>, window: int, now: int, t: int) {
    forall u: int :: Containing(builds, window, now, u) <= Containing(builds, window, now, t)
  }

  /** `n` is the largest number of builds whose interval contains one instant. */
  ghost predicate IsMaximum(builds: seq<Build>, window: int, now: int, n: nat) {
    exists t: int :: Busiest(builds, window, now, t) && Containing(builds, window, now, t) == n
  }

  /** An instant that is busiest, and inside no inverted interval unless nothing ever runs. */
  ghost predicate Undisturbed(builds: seq<Build>, window: int, now: int, t: int) {
    && Busiest(builds, window, now, t)
    && (Inverted(builds, window, now, t) == 0 || Containing(builds, window, now, t) == 0)
  }

  /** For all builds: the peak is the largest number of builds at one instant if and only if
      some busiest instant lies inside no inverted interval, or nothing ever runs. */
  lemma PeakIsMaximumIff(builds: seq<Build>, window: int, now: int)
    ensures IsMaximum(builds, window, now, Best(Sort(Events(builds, window, now))))
      <==> exists t: int :: Undisturbed(builds, window, now, t)
  {
    var best := Best(Sort(Events(builds, window, now)));
    var seen := PeakLaw(builds, window, now);
    if t: int :| Undisturbed(builds, window, now, t) {
      assert Containing(builds, window, now, seen) <= Containing(builds, window, now, t);
      assert Containing(builds, window, now, t) - Inverted(builds, window, now, t) <= best;
      assert IsMaximum(builds, window, now, best);
    }
    if t: int :| Busiest(builds, window, now, t) && Containing(builds, window, now, t) == best {
      assert Containing(builds, window, now, seen) <= Containing(builds, window, now, t);
      assert Undisturbed(builds, window, now, if best == 0 then t else seen);
    }
  }

  lemma SumsOf(a: Event, b: Event, c: Event, d: Event)
    ensures Best([a, b, c, d])
         == Max(Max(Max(Max(0, a.delta), a.delta + b.delta), a.delta + b.delta + c.delta),
                a.delta + b.delta + c.delta + d.delta)
  {
    assert [a, b, c, d][..3] == [a, b, c] && [a, b, c][..2] == [a, b] && [a, b][..1] == [a] && [a][..0] == [];
    assert Sum([a]) == a.delta;
    assert Sum([a, b]) == a.delta + b.delta;
    assert Sum([a, b, c]) == a.delta + b.delta + c.delta;
    assert Best([a]) == Max(0, a.delta);
    assert Best([a, b]) == Max(Best([a]), Sum([a, b]));
    assert Best([a, b, c]) == Max(Best([a, b]), Sum([a, b, c]));
  }

  lemma PlaceSteps(e: Event, es: seq<Event>, last: Event)
    ensures Place(e, []) == [e]
    ensures Before(last, e) ==> Place(e, es + [last]) == es + [last, e]
    ensures !Before(last, e) ==> Place(e, es + [last]) == Place(e, es) + [last]
  {
    assert (es + [last])[..|es|] == es;
    assert es + [last] + [e] == es + [last, e];
  }

  lemma SortSteps(es: seq<Event>, e: Event)
    ensures Sort(es + [e]) == Place(e, Sort(es))
  {
    assert (es + [e])[..|es|] == es;
  }

  lemma SortFour(p: Event, q: Event, r: Event, s: Event)
    requires !Before(p, q) && !Before(p, r) && !Before(p, s) && Before(q, r) && Before(r, s)
    ensures Sort([p, q, r, s]) == [q, r, s, p]
  {
    SortSteps([], p);
    PlaceSteps(p, [], p);
    assert [] + [p] == [p] && Sort([p]) == [p];
    SortSteps([p], q);
    PlaceSteps(q, [], p);
    assert [p] + [q] == [p, q] && Sort([p, q]) == [q] + [p];
    SortSteps([p, q], r);
    PlaceSteps(r, [q], p);
    PlaceSteps(r, [], q);
    assert [p, q] + [r] == [p, q, r] && [] + [q] == [q];
    assert Place(r, [q]) == [q, r];
    assert Sort([p, q, r]) == [q, r] + [p];
    SortSteps([p, q, r], s);
    PlaceSteps(s, [q, r], p);
    PlaceSteps(s, [q], r);
    assert [p, q, r] + [s] == [p, q, r, s] && [q] + [r] == [q, r];
    assert Place(s, [q, r]) == [q] + [r, s];
  }

  lemma EventsOfTwo(a: Build, b: Build, window: int, now: int)
    requires InWindow(a, window, now) && InWindow(b, window, now)
    ensures Events([a, b], window, now)
         == [Event(Max(a.start.value, window), 1), Event(EndOf(a, now), -1),
             Event(Max(b.start.value, window), 1), Event(EndOf(b, now), -1)]
  {
    assert [a, b][..1] == [a] && [a][..0] == [];
    assert Events([a], window, now) == [Event(Max(a.start.value, window), 1), Event(EndOf(a, now), -1)];
  }

  /** A build recorded as ending before it starts can hide a running one. */
  lemma InversionHides()
    ensures var builds := [Build(Some(8), Some(2)), Build(Some(3), Some(7))];
      Containing(builds, 0, 10, 5) == 1 && Best(Sort(Events(builds, 0, 10))) == 0
  {
    var a, b := Build(Some(8), Some(2)), Build(Some(3), Some(7));
    assert [a, b][..1] == [a] && [a][..0] == [];
    assert Containing([a], 0, 10, 5) == 0;
    EventsOfTwo(a, b, 0, 10);
    SortFour(Event(8, 1), Event(2, -1), Event(3, 1), Event(7, -1));
    SumsOf(Event(2, -1), Event(3, 1), Event(7, -1), Event(8, 1));
  }
}
