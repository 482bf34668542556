/** What a valid stimulus without simultaneous events has at one time: plain sets, or one event, or one
    free-clock edge. */
module Timesteps {
  import opened Wrap
  import opened Sorting
  import opened Stimulus
  import opened Validation
  import opened Compile
  import opened Generators

  ghost predicate Unmarked(v: Vec) { forall e | e in v.events :: !e.sim }

  function FreeAt(v: Vec, t: int): seq<Event>
    requires ClocksOk(v)
  {
    With(FreeEdges(v), t, Time)
  }

  // ---- free-clock edges, clock by clock --------------------------------------------------------------

  function GoldAll(v: Vec, cs: seq<Clock>, t: int): seq<Event>
    requires forall c | c in cs :: c.period > 0
  {
    if cs == [] then [] else (if cs[0].free then Gold(v, cs[0], t) else []) + GoldAll(v, cs[1..], t)
  }

  lemma {:induction false} EdgesByClock(v: Vec, cs: seq<Clock>, t: int)
    requires forall c | c in cs :: c.period > 0
    ensures forall r | r in RunsOf(v, cs) :: r.clock.period > 0
    ensures With(EdgesOf(v, RunsOf(v, cs)), t, Time) == GoldAll(v, cs, t)
    decreases cs
  {
    RunClocks(v, cs);
    if cs != [] {
      var c := cs[0];
      EdgesByClock(v, cs[1..], t);
      RunsPeriods(v, c);
      EdgesJoin(v, ClockRuns(v, c), RunsOf(v, cs[1..]));
      WithJoin(EdgesOf(v, ClockRuns(v, c)), EdgesOf(v, RunsOf(v, cs[1..])), t, Time);
    }
  }

  lemma Periods(v: Vec)
    requires ClocksOk(v)
    ensures forall c | c in v.clocks :: c.period > 0 && 0 <= c.index < v.header.nclk && c.phase >= 0
  {
    forall c | c in v.clocks
      ensures c.period > 0 && 0 <= c.index < v.header.nclk && c.phase >= 0
    {
      var i :| 0 <= i < |v.clocks| && v.clocks[i] == c;
      assert ClockOk(v.header, v.clocks[i]);
    }
  }

  lemma FreeAtByClock(v: Vec, t: int)
    requires ClocksOk(v)
    ensures forall c | c in v.clocks :: c.period > 0
    ensures FreeAt(v, t) == GoldAll(v, v.clocks, t)
  {
    Periods(v);
    EdgesByClock(v, v.clocks, t);
    RunClocks(v, v.clocks);
    WithSort(EdgesOf(v, FreeRuns(v)), t, Time);
  }

  lemma FreeAtEdges(v: Vec, t: int)
    requires ClocksOk(v)
    ensures forall e | e in FreeAt(v, t) :: e.Edge? && e.t == t && !e.sim && DeclaredFree(v, e.clk)
  {
    FreeAtByClock(v, t);
    GoldEdges(v, v.clocks, t);
  }

  lemma {:induction false} GoldEdges(v: Vec, cs: seq<Clock>, t: int)
    requires forall c | c in cs :: c.period > 0 && c in v.clocks
    ensures forall e | e in GoldAll(v, cs, t) :: e.Edge? && e.t == t && !e.sim && DeclaredFree(v, e.clk)
    decreases cs
  {
    if cs != [] {
      GoldEdges(v, cs[1..], t);
      if cs[0].free {
        RunsPeriods(v, cs[0]);
        RunEdgesOf(v, ClockRuns(v, cs[0]), cs[0]);
        WithIn(EdgesOf(v, ClockRuns(v, cs[0])), t, Time);
        assert cs[0] in v.clocks;
      }
    }
  }

  lemma {:induction false} RunEdgesOf(v: Vec, runs: seq<Span>, c: Clock)
    requires c.period > 0 && forall r | r in runs :: r.clock == c
    ensures forall e | e in EdgesOf(v, runs) :: e.Edge? && e.clk == c.index && !e.sim
    decreases runs
  {
    if runs != [] {
      assert runs[0] in runs;
      RunEdgesOf(v, runs[1..], c);
      EdgesOfOne(c, runs[0].start, Limit(v, runs[0]));
    }
  }

  lemma {:induction false} EdgesOfOne(c: Clock, t: int, limit: int)
    requires c.period > 0
    ensures forall e | e in EdgesFrom(c, t, limit) :: e.Edge? && e.clk == c.index && !e.sim
    decreases limit - t
  {
    if t <= limit { EdgesOfOne(c, t + c.period, limit); }
  }

  // ---- the timeline at one time ----------------------------------------------------------------------

  lemma {:induction false} LaterWith(es: seq<Event>, t: int)
    ensures With(Later(es), t, Time) == Later(With(es, t, Time))
    decreases es
  {
    if es != [] {
      var e, later, w := es[0], Later(es[1..]), With(es[1..], t, Time);
      LaterWith(es[1..], t);
      if e.t == t {
        assert With(es, t, Time) == [e] + w;
        assert ([e] + w)[1..] == w && ([e] + w)[0] == e;
      } else {
        assert With(es, t, Time) == w;
      }
      if Initial(e) {
        assert Later(es) == later;
      } else {
        assert Later(es) == [e] + later;
        assert ([e] + later)[1..] == later && ([e] + later)[0] == e;
      }
    }
  }

  function TimelineAt(v: Vec, t: int): seq<Event>
    requires ClocksOk(v)
  {
    Later(EventsAt(v, t)) + FreeAt(v, t)
  }

  lemma TimelineWith(v: Vec, t: int)
    requires ClocksOk(v)
    ensures With(Timeline(v), t, Time) == TimelineAt(v, t)
  {
    WithSort(Later(v.events) + FreeEdges(v), t, Time);
    WithJoin(Later(v.events), FreeEdges(v), t, Time);
    LaterWith(v.events, t);
  }

  lemma {:induction false} LaterIn(es: seq<Event>)
    ensures forall e | e in Later(es) :: e in es && !Initial(e)
    ensures forall e | e in es && !Initial(e) :: e in Later(es)
    decreases es
  {
    if es != [] {
      LaterIn(es[1..]);
      assert es == [es[0]] + es[1..];
    }
  }

  /** The rule that some changes are alone, at one time of an unmarked timeline. */
  lemma TwoChanges(v: Vec, m: DutMap, t: int, a: nat, b: nat)
    requires ClocksOk(v) && Numbered(m) && Unmarked(v) && Alone(Timeline(v), m)
    requires a < b < |TimelineAt(v, t)| && Change(TimelineAt(v, t)[a]) && Change(TimelineAt(v, t)[b])
    ensures !Lonely(m, TimelineAt(v, t)[a]) && !Lonely(m, TimelineAt(v, t)[b])
  {
    var tl, w := Timeline(v), TimelineAt(v, t);
    TimelineWith(v, t);
    WithTwo(tl, t, Time, a, b);
    WithIn(tl, t, Time);
    LaterIn(EventsAt(v, t));
    WithIn(v.events, t, Time);
    FreeAtEdges(v, t);
    assert w[a] in w && w[b] in w;
    assert !w[a].sim by { assert w[a] in Later(EventsAt(v, t)) || w[a] in FreeAt(v, t); }
    hide Timeline, Lonely;
    var i, j :| 0 <= i < j < |tl| && tl[i] == w[a] && tl[j] == w[b];
    assert tl[i] in tl && tl[i].t == t && tl[j].t == t;
    assert !AllMarked(tl, t);
  }

  /** At most one free-clock edge at a time. */
  lemma OneFree(v: Vec, m: DutMap, t: int)
    requires Numbered(m) && ErrorFree(v, m) && Unmarked(v)
    ensures |FreeAt(v, t)| <= 1
  {
    hide ErrorFree, StructureOk, Timeline, FreeAt, Alone, SamplesApart, EdgesOk, Lonely, ClocksOk;
    ErrorFreeParts(v, m);
    FreeAtEdges(v, t);
    var later, free := Later(EventsAt(v, t)), FreeAt(v, t);
    var w := TimelineAt(v, t);
    if |free| > 1 {
      assert w[|later|] == free[0] && w[|later| + 1] == free[1];
      assert free[0] in free && free[1] in free;
      TwoChanges(v, m, t, |later|, |later| + 1);
      EdgeLonely(m, free[0]);
      assert false;
    }
  }

  /** Beside it no other change and no sample. */
  lemma NothingBeside(v: Vec, m: DutMap, t: int, e: Event)
    requires Numbered(m) && ErrorFree(v, m) && Unmarked(v)
    requires FreeAt(v, t) != [] && e in Later(EventsAt(v, t))
    ensures !Change(e) && !e.Sample?
  {
    hide ErrorFree, StructureOk, Timeline, FreeAt, Alone, SamplesApart, EdgesOk, Lonely, ClocksOk;
    ErrorFreeParts(v, m);
    FreeAtEdges(v, t);
    var later, free := Later(EventsAt(v, t)), FreeAt(v, t);
    var w := TimelineAt(v, t);
    assert w[|later|] == free[0] && free[0] in free;
    var k :| 0 <= k < |later| && later[k] == e;
    assert w[k] == e;
    if Change(e) {
      TwoChanges(v, m, t, k, |later|);
      EdgeLonely(m, free[0]);
      assert false;
    }
    NoSampleBeside(v, t, e, free[0]);
  }

  /** At most one free-clock edge at a time, beside which there is no other change or sample, but for
      initialisation; and the stepped edges are of stepped clocks. */
  lemma StepRules(v: Vec, m: DutMap, t: int)
    requires Numbered(m) && ErrorFree(v, m) && Unmarked(v)
    ensures |FreeAt(v, t)| <= 1
    ensures FreeAt(v, t) != [] ==> forall e | e in EventsAt(v, t) :: !e.Sample? && !e.Glbl? && !e.Edge? && (e.Set? ==> t == 0)
    ensures forall e | e in EventsAt(v, t) && e.Edge? :: Declared(v, e.clk) && !DeclaredFree(v, e.clk)
  {
    hide ErrorFree, StructureOk, Timeline, FreeAt, Alone, SamplesApart, EdgesOk, Lonely, ClocksOk;
    ErrorFreeParts(v, m);
    OneFree(v, m, t);
    LaterIn(EventsAt(v, t));
    WithIn(v.events, t, Time);
    if FreeAt(v, t) != [] {
      forall e | e in EventsAt(v, t)
        ensures !e.Sample? && !e.Glbl? && !e.Edge? && (e.Set? ==> t == 0)
      {
        if !Initial(e) { NothingBeside(v, m, t, e); }
      }
    }
    forall e | e in EventsAt(v, t) && e.Edge?
      ensures Declared(v, e.clk) && !DeclaredFree(v, e.clk)
    {
      assert EventOk(v, e);
      if DeclaredFree(v, e.clk) {
        EdgeComputed(v, t, e);
        NothingBeside(v, m, t, e);
        assert false;
      }
    }
  }

  lemma EdgeLonely(m: DutMap, e: Event)
    requires Numbered(m) && e.Edge?
    ensures Lonely(m, e)
  {}

  lemma ErrorFreeParts(v: Vec, m: DutMap)
    requires Numbered(m) && ErrorFree(v, m)
    ensures ClocksOk(v) && (forall e | e in v.events :: EventOk(v, e))
    ensures Alone(Timeline(v), m) && SamplesApart(Timeline(v)) && EdgesOk(v, Timeline(v))
  {}

  lemma NoSampleBeside(v: Vec, t: int, e: Event, x: Event)
    requires ClocksOk(v) && SamplesApart(Timeline(v)) && e in Later(EventsAt(v, t)) && x in FreeAt(v, t)
    ensures !e.Sample?
  {
    TimelineWith(v, t);
    WithIn(Timeline(v), t, Time);
    FreeAtEdges(v, t);
    hide Timeline, FreeAt;
    assert e in TimelineAt(v, t) && x in TimelineAt(v, t);
    assert e in Timeline(v) && x in Timeline(v) && e.t == t && x.t == t && Change(x);
  }

  lemma EdgeComputed(v: Vec, t: int, e: Event)
    requires ClocksOk(v) && EdgesOk(v, Timeline(v)) && e in EventsAt(v, t) && e.Edge? && DeclaredFree(v, e.clk)
    ensures FreeAt(v, t) != []
  {
    LaterIn(EventsAt(v, t));
    TimelineWith(v, t);
    WithIn(Timeline(v), t, Time);
    WithIn(v.events, t, Time);
    WithIn(FreeEdges(v), t, Time);
    hide Timeline, FreeEdges;
    assert e in TimelineAt(v, t);
    assert e in Timeline(v) && e.t == t;
    assert Edge(t, false, e.clk, e.rise) in FreeEdges(v);
    assert Edge(t, false, e.clk, e.rise) in FreeAt(v, t);
  }
}
