/** The edges of free-running clocks over a whole file (`free_clock_edges` of formats/xvec.py, `_check_free_stops`
    of validate.py): across any number of stops and restarts they alternate. */
module FreeClocks {
  import opened Wrap
  import opened Sorting
  import opened Stimulus
  import opened Validation

  // ---- the edges of one clock ------------------------------------------------------------------------

  predicate On(e: Event, k: int) { e.Edge? && e.clk == k }

  function EdgesOn(es: seq<Event>, k: int): seq<Event> {
    if es == [] then [] else (if On(es[0], k) then [es[0]] else []) + EdgesOn(es[1..], k)
  }

  lemma {:induction false} EdgesOnJoin(a: seq<Event>, b: seq<Event>, k: int)
    ensures EdgesOn(a + b, k) == EdgesOn(a, k) + EdgesOn(b, k)
  {
    if a == [] {
      assert a + b == b;
    } else {
      var s, h := a + b, if On(a[0], k) then [a[0]] else [];
      assert s[0] == a[0] && s[1..] == a[1..] + b;
      EdgesOnJoin(a[1..], b, k);
      hide On;
      assert h + (EdgesOn(a[1..], k) + EdgesOn(b, k)) == h + EdgesOn(a[1..], k) + EdgesOn(b, k);
    }
  }

  lemma {:induction false} EdgesOnIn(es: seq<Event>, k: int)
    ensures forall e :: e in EdgesOn(es, k) <==> e in es && On(e, k)
  {
    if es != [] {
      EdgesOnIn(es[1..], k);
      assert forall e :: e in es <==> e == es[0] || e in es[1..];
    }
  }

  /** Whether the edges of a clock alternate depends on them alone. */
  lemma {:induction false} AlternatesOn(es: seq<Event>, k: int, level: bool)
    ensures Alternates(es, k, level) <==> Alternates(EdgesOn(es, k), k, level)
  {
    if es != [] {
      AlternatesOn(es[1..], k, if On(es[0], k) then es[0].rise else level);
      var rest := EdgesOn(es[1..], k);
      if On(es[0], k) {
        assert EdgesOn(es, k) == [es[0]] + rest && ([es[0]] + rest)[0] == es[0] && ([es[0]] + rest)[1..] == rest;
      } else {
        assert EdgesOn(es, k) == [] + rest && [] + rest == rest;
      }
    }
  }

  lemma {:induction false} InsertOn(x: Event, s: seq<Event>, k: int)
    requires On(x, k) ==> forall y | y in EdgesOn(s, k) :: x.t <= y.t
    ensures EdgesOn(Insert(x, s, Time), k) == (if On(x, k) then [x] else []) + EdgesOn(s, k)
  {
    if s == [] || Time(x) <= Time(s[0]) {
      assert ([x] + s)[0] == x && ([x] + s)[1..] == s;
    } else {
      var t := Insert(x, s[1..], Time);
      assert ([s[0]] + t)[0] == s[0] && ([s[0]] + t)[1..] == t;
      LaterOn(x, s, k);
      InsertOn(x, s[1..], k);
      assert [] + EdgesOn(s[1..], k) == EdgesOn(s[1..], k) && [] + EdgesOn(t, k) == EdgesOn(t, k);
      if !On(x, k) {
        assert [] + EdgesOn(s, k) == EdgesOn(s, k);
      }
    }
  }

  lemma LaterOn(x: Event, s: seq<Event>, k: int)
    requires s != [] && x.t > s[0].t && (On(x, k) ==> forall y | y in EdgesOn(s, k) :: x.t <= y.t)
    ensures On(x, k) ==> !On(s[0], k) && forall y | y in EdgesOn(s[1..], k) :: x.t <= y.t
  {
    EdgesOnIn(s, k);
    EdgesOnIn(s[1..], k);
    assert s[0] in s && forall y | y in s[1..] :: y in s;
  }

  /** Sorting by time leaves the edges of a clock as they are when they are in order already. */
  lemma {:induction false} SortOn(es: seq<Event>, k: int)
    requires SortedBy(EdgesOn(es, k), Time)
    ensures EdgesOn(Sort(es, Time), k) == EdgesOn(es, k)
  {
    if es != [] {
      var rest := EdgesOn(es[1..], k);
      assert [] + rest == rest;
      if On(es[0], k) { Headed(es[0], rest); }
      SortOn(es[1..], k);
      hide EdgesOn, SortedBy;
      InsertOn(es[0], Sort(es[1..], Time), k);
    }
  }

  lemma Headed(x: Event, es: seq<Event>)
    requires SortedBy([x] + es, Time)
    ensures SortedBy(es, Time) && forall y | y in es :: x.t <= y.t
  {
    assert forall i :: 0 <= i < |es| ==> es[i] == ([x] + es)[i + 1] && Time(([x] + es)[0]) <= Time(([x] + es)[i + 1]);
  }

  // ---- one run ---------------------------------------------------------------------------------------

  predicate Sane(c: Clock) { c.period > 0 && 0 <= High(c) < c.period }

  /** A run begins with a rise and, when there is time, the fall; then it goes on a period later. */
  lemma RunStep(c: Clock, start: int, limit: int)
    requires Sane(c) && start <= limit
    ensures var k, rest, es := c.index, EdgesFrom(c, start + c.period, limit), EdgesFrom(c, start, limit);
      var rise, fall := Edge(start, false, k, true), Edge(start + High(c), false, k, false);
      if start + High(c) <= limit then es == [rise] + ([fall] + rest) else rest == [] && es == [rise] + rest
  {
    var k, rest := c.index, EdgesFrom(c, start + c.period, limit);
    var rise, fall := Edge(start, false, k, true), Edge(start + High(c), false, k, false);
    assert [rise] + [fall] + rest == [rise] + ([fall] + rest) && [rise] + [] + rest == [rise] + rest;
  }

  /** The edges of a run are of its clock, within it, and in time order. */
  lemma {:induction false} RunOrdered(c: Clock, start: int, limit: int)
    requires Sane(c)
    ensures var es := EdgesFrom(c, start, limit); SortedBy(es, Time) && forall e | e in es :: On(e, c.index) && start <= e.t <= limit
    decreases limit - start
  {
    if start <= limit {
      RunStep(c, start, limit);
      RunOrdered(c, start + c.period, limit);
      var rest := EdgesFrom(c, start + c.period, limit);
      hide EdgesFrom;
      var rise, fall := Edge(start, false, c.index, true), Edge(start + High(c), false, c.index, false);
      if start + High(c) <= limit {
        Prepend(fall, rest);
        Prepend(rise, [fall] + rest);
      } else {
        Prepend(rise, rest);
      }
    }
  }

  lemma Prepend(x: Event, es: seq<Event>)
    requires SortedBy(es, Time) && forall e | e in es :: x.t <= e.t
    ensures SortedBy([x] + es, Time) && forall e :: e in [x] + es <==> e == x || e in es
  {
    assert forall i :: 0 <= i < |es| ==> es[i] in es;
  }

  lemma EdgeFirst(x: Event, es: seq<Event>, k: int, level: bool)
    requires On(x, k)
    ensures Alternates([x] + es, k, level) <==> x.rise != level && Alternates(es, k, x.rise)
    ensures LevelAfter([x] + es, k, level) == LevelAfter(es, k, x.rise)
  {
    assert ([x] + es)[0] == x && ([x] + es)[1..] == es;
  }

  /** They alternate from low, and a run stopped inside a low phase ends low. */
  lemma {:induction false} RunAlternates(c: Clock, start: int, limit: int)
    requires Sane(c)
    ensures Alternates(EdgesFrom(c, start, limit), c.index, false)
    ensures (limit + 1 - start) % c.period > High(c) ==> !LevelAfter(EdgesFrom(c, start, limit), c.index, false)
    decreases limit - start
  {
    if start <= limit {
      var k, rest := c.index, EdgesFrom(c, start + c.period, limit);
      RunStep(c, start, limit);
      RunAlternates(c, start + c.period, limit);
      hide EdgesFrom;
      var rise, fall := Edge(start, false, k, true), Edge(start + High(c), false, k, false);
      if start + High(c) <= limit {
        EdgeFirst(rise, [fall] + rest, k, false);
        EdgeFirst(fall, rest, k, true);
        assert (limit + 1 - start) - c.period == limit + 1 - (start + c.period);
        ModShift(limit + 1 - start, c.period);
      } else {
        EdgeFirst(rise, rest, k, false);
        ModIs(limit + 1 - start, c.period, 0, limit + 1 - start);
      }
    }
  }

  // ---- the runs of one clock -------------------------------------------------------------------------

  lemma {:induction false} EdgesOfJoin(v: Vec, a: seq<Span>, b: seq<Span>)
    requires forall r | r in a + b :: r.clock.period > 0
    ensures (forall r | r in a :: r.clock.period > 0) && (forall r | r in b :: r.clock.period > 0)
    ensures EdgesOf(v, a + b) == EdgesOf(v, a) + EdgesOf(v, b)
  {
    assert forall r | r in a :: r in a + b;
    assert forall r | r in b :: r in a + b;
    if a == [] {
      assert a + b == b;
    } else {
      assert (a + b)[0] == a[0] && (a + b)[1..] == a[1..] + b && forall r | r in a[1..] :: r in a;
      EdgesOfJoin(v, a[1..], b);
    }
  }

  lemma OneRun(v: Vec, r: Span)
    requires r.clock.period > 0
    ensures EdgesOf(v, [r]) == EdgesFrom(r.clock, r.start, Limit(v, r))
  {
    assert [r][1..] == [];
  }

  lemma Chained(a: seq<Event>, b: seq<Event>, k: int, at: int)
    requires SortedBy(a, Time) && SortedBy(b, Time) && (forall e | e in a :: e.t < at) && (forall e | e in b :: e.t >= at)
    requires Alternates(a, k, false) && !LevelAfter(a, k, false) && Alternates(b, k, false)
    ensures SortedBy(a + b, Time) && Alternates(a + b, k, false)
  {
    AlternatesSplit(a, b, k, false);
    assert forall i :: 0 <= i < |a| ==> a[i] in a;
    assert forall i :: 0 <= i < |b| ==> b[i] in b;
  }

  predicate Within(es: seq<Event>, k: int, low: int) { forall e | e in es :: On(e, k) && e.t >= low }

  lemma WithinAt(es: seq<Event>, k: int, low: int)
    requires Within(es, k, low)
    ensures forall e | e in es :: e.t >= low
  {}

  lemma BothWithin(a: seq<Event>, b: seq<Event>, k: int, start: int, at: int, low: int)
    requires (forall e | e in a :: On(e, k) && start <= e.t < at) && Within(b, k, at) && low <= start && low <= at
    ensures Within(a + b, k, low)
  {
    assert forall e | e in a + b :: e in a || e in b;
  }

  predicate InTime(es: seq<Event>) { forall i, j :: 0 <= i < j < |es| ==> es[i].t <= es[j].t }

  predicate RunsOk(v: Vec, c: Clock, runs: seq<Span>)
    requires c.period > 0
  {
    forall r | r in runs :: r.clock == c && StopOk(v, r)
  }

  /** What is kept of the edges of some runs of a clock. */
  predicate Good(v: Vec, c: Clock, runs: seq<Span>, low: int)
    requires c.period > 0 && RunsOk(v, c, runs)
  {
    var all := EdgesOf(v, runs);
    SortedBy(all, Time) && Alternates(all, c.index, false) && Within(all, c.index, low)
  }

  /** The runs that some events make, and the edges of them. */
  lemma {:induction false} RunsAlternate(v: Vec, c: Clock, es: seq<Event>, open: Option<int>, low: int)
    requires Sane(c) && RunsOk(v, c, RunsFrom(c, es, open))
    requires InTime(es) && (forall e | e in es :: e.t >= low)
    requires open.Some? ==> open.value >= low
    ensures Good(v, c, RunsFrom(c, es, open), low)
    decreases |es|
  {
    var runs := RunsFrom(c, es, open);
    if es == [] {
      if open.Some? {
        assert runs[0] in runs;
        OneRun(v, runs[0]);
        RunAlternates(c, open.value, Limit(v, runs[0]));
        RunOrdered(c, open.value, Limit(v, runs[0]));
      }
    } else {
      assert es[0] in es && forall e | e in es[1..] :: e in es;
      NotBefore(es);
      hide Good, InTime, Limit, StopOk;
      if StartOf(es[0], c.index) {
        RunsAlternate(v, c, es[1..], Some(es[0].t), low);
      } else if StopOf(es[0], c.index) && open.Some? {
        FirstRun(v, c, es, open.value);
        RunsAlternate(v, c, es[1..], None, es[0].t);
        hide *;
        StoppedThen(v, c, Span(c, open.value, Some(es[0].t)), RunsFrom(c, es[1..], None), low);
      } else {
        RunsAlternate(v, c, es[1..], open, low);
      }
    }
  }

  /** A stopped run before runs that begin once it has stopped. */
  lemma StoppedThen(v: Vec, c: Clock, r: Span, rest: seq<Span>, low: int)
    requires Sane(c) && RunsOk(v, c, rest) && RunsOk(v, c, [r] + rest)
    requires r.clock == c && r.stop.Some? && StopOk(v, r) && r.start >= low && r.stop.value >= low
    requires Good(v, c, rest, r.stop.value)
    ensures Good(v, c, [r] + rest, low)
  {
    var a, b := EdgesFrom(c, r.start, r.stop.value - 1), EdgesOf(v, rest);
    hide StopOk, EdgesFrom, EdgesOf, LevelAfter, Alternates, SortedBy, On, Limit, Within;
    StoppedRun(v, r);
    OneStopped(v, r, rest);
    WithinAt(b, c.index, r.stop.value);
    Chained(a, b, c.index, r.stop.value);
    BothWithin(a, b, c.index, r.start, r.stop.value, low);
  }

  lemma OneStopped(v: Vec, r: Span, rest: seq<Span>)
    requires r.stop.Some? && r.clock.period > 0 && forall x | x in rest :: x.clock.period > 0
    ensures EdgesOf(v, [r] + rest) == EdgesFrom(r.clock, r.start, r.stop.value - 1) + EdgesOf(v, rest)
  {
    OneRun(v, r);
    EdgesOfJoin(v, [r], rest);
  }

  lemma FirstRun(v: Vec, c: Clock, es: seq<Event>, start: int)
    requires c.period > 0 && es != [] && !StartOf(es[0], c.index) && StopOf(es[0], c.index)
    requires RunsOk(v, c, RunsFrom(c, es, Some(start)))
    ensures var r, rest := Span(c, start, Some(es[0].t)), RunsFrom(c, es[1..], None);
      RunsFrom(c, es, Some(start)) == [r] + rest && StopOk(v, r) && RunsOk(v, c, rest)
  {
    hide StopOk;
    var r, rest := Span(c, start, Some(es[0].t)), RunsFrom(c, es[1..], None);
    assert RunsFrom(c, es, Some(start)) == [r] + rest;
    assert r in [r] + rest && forall x | x in rest :: x in [r] + rest;
  }

  lemma StoppedRun(v: Vec, r: Span)
    requires Sane(r.clock) && StopOk(v, r) && r.stop.Some?
    ensures var es := EdgesFrom(r.clock, r.start, r.stop.value - 1);
      && SortedBy(es, Time) && Alternates(es, r.clock.index, false) && !LevelAfter(es, r.clock.index, false)
      && forall e | e in es :: On(e, r.clock.index) && r.start <= e.t < r.stop.value
  {
    RunAlternates(r.clock, r.start, r.stop.value - 1);
    RunOrdered(r.clock, r.start, r.stop.value - 1);
    hide EdgesFrom, LevelAfter, Alternates;
    assert r.stop.value - 1 + 1 - r.start == r.stop.value - r.start;
  }

  lemma NotBefore(es: seq<Event>)
    requires es != [] && InTime(es)
    ensures forall e | e in es[1..] :: e.t >= es[0].t
    ensures InTime(es[1..])
  {
    forall e | e in es[1..]
      ensures e.t >= es[0].t
    {
      var i :| 0 <= i < |es[1..]| && es[1..][i] == e;
      assert es[i + 1] == e;
    }
  }

  // ---- the whole file --------------------------------------------------------------------------------

  function ClockEdges(v: Vec, c: Clock): seq<Event>
    requires Sane(c)
  {
    RunsFromClock(c, v.events, if Explicit(v, c.index) then None else Some(c.phase));
    EdgesOf(v, ClockRuns(v, c))
  }

  function AllEdges(v: Vec, cs: seq<Clock>): seq<Event>
    requires forall c | c in cs :: Sane(c)
  {
    if cs == [] then [] else ClockEdges(v, cs[0]) + AllEdges(v, cs[1..])
  }

  lemma {:induction false} AllEdgesAre(v: Vec, cs: seq<Clock>)
    requires (forall c | c in cs :: Sane(c)) && forall r | r in RunsOf(v, cs) :: r.clock.period > 0
    ensures EdgesOf(v, RunsOf(v, cs)) == AllEdges(v, cs)
    decreases |cs|
  {
    if cs != [] {
      assert cs[0] in cs && forall x | x in cs[1..] :: x in cs;
      EdgesOfJoin(v, ClockRuns(v, cs[0]), RunsOf(v, cs[1..]));
      AllEdgesAre(v, cs[1..]);
    }
  }

  lemma {:induction false} RunsOn(v: Vec, runs: seq<Span>, d: Clock)
    requires Sane(d) && forall r | r in runs :: r.clock == d
    ensures forall e | e in EdgesOf(v, runs) :: On(e, d.index)
    decreases |runs|
  {
    if runs != [] {
      assert runs[0] in runs && forall r | r in runs[1..] :: r in runs;
      RunsOn(v, runs[1..], d);
      RunOrdered(d, runs[0].start, Limit(v, runs[0]));
    }
  }

  lemma {:induction false} NoneOn(es: seq<Event>, k: int)
    requires forall e | e in es :: !On(e, k)
    ensures EdgesOn(es, k) == []
  {
    if es != [] {
      assert es[0] in es && forall e | e in es[1..] :: e in es;
      NoneOn(es[1..], k);
    }
  }

  lemma ClockOn(v: Vec, d: Clock, k: int)
    requires Sane(d)
    ensures EdgesOn(ClockEdges(v, d), k) == if d.index == k then ClockEdges(v, d) else []
  {
    RunsFromClock(d, v.events, if Explicit(v, d.index) then None else Some(d.phase));
    RunsOn(v, ClockRuns(v, d), d);
    if d.index == k { AllOn(ClockEdges(v, d), k); } else { NoneOn(ClockEdges(v, d), k); }
  }

  lemma {:induction false} OthersOn(v: Vec, cs: seq<Clock>, k: int)
    requires forall c | c in cs :: Sane(c) && c.index != k
    ensures EdgesOn(AllEdges(v, cs), k) == []
    decreases |cs|
  {
    if cs != [] {
      hide ClockEdges;
      assert cs[0] in cs && forall x | x in cs[1..] :: x in cs;
      ClockOn(v, cs[0], k);
      OthersOn(v, cs[1..], k);
      EdgesOnJoin(ClockEdges(v, cs[0]), AllEdges(v, cs[1..]), k);
    }
  }

  /** Of all edges, those of one clock are those of its runs. */
  lemma {:induction false} MineOn(v: Vec, cs: seq<Clock>, i: nat)
    requires (forall c | c in cs :: Sane(c)) && (forall a, b :: 0 <= a < b < |cs| ==> cs[a].index != cs[b].index) && i < |cs|
    ensures EdgesOn(AllEdges(v, cs), cs[i].index) == ClockEdges(v, cs[i])
    decreases |cs|
  {
    hide ClockEdges;
    var k, tail := cs[i].index, cs[1..];
    assert cs[0] in cs && forall x | x in tail :: x in cs;
    ClockOn(v, cs[0], k);
    EdgesOnJoin(ClockEdges(v, cs[0]), AllEdges(v, tail), k);
    if i == 0 {
      OthersOn(v, tail, k);
    } else {
      MineOn(v, tail, i - 1);
    }
  }

  /** In every file whose stops are allowed, the edges of a free clock alternate in time order, rise first,
      across any number of stops and restarts. */
  lemma EdgesAlternate(v: Vec, c: Clock)
    requires ClocksOk(v) && Ordered(v.events) && StopsOk(v) && c in v.clocks && c.free
    ensures Alternates(FreeEdges(v), c.index, false)
  {
    forall x | x in v.clocks
      ensures Sane(x)
    {
      HighInside(x);
    }
    RunClocks(v, v.clocks);
    var i :| 0 <= i < |v.clocks| && v.clocks[i] == c;
    AllEdgesAre(v, v.clocks);
    MineOn(v, v.clocks, i);
    MineAlternate(v, c);
    SortOn(EdgesOf(v, FreeRuns(v)), c.index);
    AlternatesOn(FreeEdges(v), c.index, false);
  }

  lemma MineAlternate(v: Vec, c: Clock)
    requires ClocksOk(v) && Ordered(v.events) && StopsOk(v) && c in v.clocks && c.free && Sane(c)
    ensures SortedBy(ClockEdges(v, c), Time) && Alternates(ClockEdges(v, c), c.index, false)
  {
    RunClocks(v, v.clocks);
    var open := if Explicit(v, c.index) then None else Some(c.phase);
    RunsFromClock(c, v.events, open);
    RunsAlternate(v, c, v.events, open, Lowest(v.events, if open.Some? then open.value else 0));
  }

  lemma {:induction false} AllOn(es: seq<Event>, k: int)
    requires forall e | e in es :: On(e, k)
    ensures EdgesOn(es, k) == es
  {
    if es != [] {
      assert es[0] in es && forall e | e in es[1..] :: e in es;
      AllOn(es[1..], k);
    }
  }

  function Lowest(es: seq<Event>, low: int): (r: int)
    ensures r <= low && forall e | e in es :: r <= e.t
  {
    if es == [] then low else
    var r := Lowest(es[1..], low);
    assert forall e :: e in es <==> e == es[0] || e in es[1..];
    if es[0].t < r then es[0].t else r
  }
}
