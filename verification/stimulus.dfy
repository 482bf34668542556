/** Stimulus files (xvec.py): headers, clocks and events, the structure rules shared by parser and
    writer, and the expansion of free-running clocks. */
module Stimulus {
  import opened Wrap
  import opened Sorting

  datatype Logic = L0 | L1 | LX | LZ

  datatype Signal = GSR | GTS | GRESTORE

  /** `sim`: marked `simultaneous`. A clock `clk<N>` is named by its index N; set values are most
      significant bit first. */
  datatype Event =
    | Set(t: int, sim: bool, lsb: int, msb: int, value: seq<Logic>)
    | Edge(t: int, sim: bool, clk: int, rise: bool)
    | Glbl(t: int, sim: bool, sig: Signal, level: bool)
    | Sample(t: int, sim: bool, name: string)
    | ClockStart(t: int, sim: bool, clk: int)
    | ClockStop(t: int, sim: bool, clk: int)
    | End(t: int, sim: bool)

  datatype Clock = Clock(index: int, period: int, phase: int, duty: int, free: bool)

  datatype Header = Header(prim: string, cfg: string, nin: int, nout: int, nclk: int, settle: int, seed: int,
                           sep: Option<int>, reject: bool, illegal: Option<seq<string>>, attrs: map<string, string>)

  datatype Vec = Vec(header: Header, clocks: seq<Clock>, events: seq<Event>)

  function Time(e: Event): int { e.t }

  // ---- labels ----------------------------------------------------------------------------------------

  predicate LabelChar(c: char) {
    'A' <= c <= 'Z' || 'a' <= c <= 'z' || '0' <= c <= '9' || c == '_' || c == '.' || c == '/' || c == '-'
  }

  /** `is_label`: one or more of `[A-Za-z0-9_./-]`. */
  predicate IsLabel(s: string) { s != "" && forall i :: 0 <= i < |s| ==> LabelChar(s[i]) }

  // ---- structure (`check_structure`) -----------------------------------------------------------------

  predicate HeaderOk(h: Header) {
    h.nin >= 0 && h.nout >= 0 && h.nclk >= 0 && h.settle >= 0 && h.seed >= 0 && (h.sep.Some? ==> h.sep.value >= 0)
  }

  predicate ClockOk(h: Header, c: Clock) {
    0 <= c.index < h.nclk && c.period > 0 && 0 < c.duty < 100 && c.phase >= 0
  }

  predicate ClocksOk(v: Vec) {
    && (forall i :: 0 <= i < |v.clocks| ==> ClockOk(v.header, v.clocks[i]))
    && (forall i, j :: 0 <= i < j < |v.clocks| ==> v.clocks[i].index != v.clocks[j].index)
  }

  predicate Declared(v: Vec, clk: int) { exists c :: c in v.clocks && c.index == clk }

  predicate DeclaredFree(v: Vec, clk: int) { exists c :: c in v.clocks && c.index == clk && c.free }

  predicate Initial(e: Event) { e.t == 0 && e.Set? }

  /** `_check_event`, the uniqueness of labels excluded. */
  predicate EventOk(v: Vec, e: Event) {
    && e.t >= 0
    && (e.t >= v.header.settle || Initial(e))
    && match e
       case Set(_, _, lsb, msb, value) => 0 <= lsb <= msb < v.header.nin && |value| == msb - lsb + 1
       case Edge(_, _, clk, _) => Declared(v, clk)
       case Sample(_, _, name) => IsLabel(name)
       case ClockStart(_, _, clk) => DeclaredFree(v, clk)
       case ClockStop(_, _, clk) => DeclaredFree(v, clk)
       case _ => true
  }

  predicate LabelsUnique(es: seq<Event>) {
    forall i, j :: 0 <= i < j < |es| && es[i].Sample? && es[j].Sample? ==> es[i].name != es[j].name
  }

  predicate Ordered(es: seq<Event>) {
    && (forall i, j :: 0 <= i < j < |es| ==> es[i].t <= es[j].t)
    && (forall i :: 0 <= i < |es| - 1 ==> !es[i].End?)
  }

  predicate Overlap(a: Event, b: Event)
    requires a.Set? && b.Set?
  {
    a.lsb <= b.msb && b.lsb <= a.msb
  }

  predicate AllSetsAt(es: seq<Event>, t: int) { forall e | e in es && e.t == t :: e.Set? }

  /** Events at one time: marking is all or nothing, a marked event is not alone, sets alone among
      themselves do not overlap, and any other company must be marked. */
  predicate Cotimed(es: seq<Event>) {
    && (forall i, j :: 0 <= i < j < |es| && es[i].t == es[j].t ==> es[i].sim == es[j].sim)
    && (forall i :: 0 <= i < |es| && es[i].sim ==> exists j :: 0 <= j < |es| && j != i && es[j].t == es[i].t)
    && (forall i, j :: 0 <= i < j < |es| && es[i].t == es[j].t ==>
          if AllSetsAt(es, es[i].t) then es[i].Set? && es[j].Set? && !Overlap(es[i], es[j]) else es[i].sim)
  }

  predicate StructureOk(v: Vec) {
    && HeaderOk(v.header)
    && ClocksOk(v)
    && (forall e | e in v.events :: EventOk(v, e))
    && LabelsUnique(v.events)
    && Ordered(v.events)
    && Cotimed(v.events)
  }

  // ---- free-running clocks ---------------------------------------------------------------------------

  /** One run of a free clock: from `start` until `stop`, or to the end of the file. */
  datatype Span = Span(clock: Clock, start: int, stop: Option<int>)

  predicate StartOf(e: Event, clk: int) { e.ClockStart? && e.clk == clk }

  predicate StopOf(e: Event, clk: int) { e.ClockStop? && e.clk == clk }

  predicate Explicit(v: Vec, clk: int) { exists e | e in v.events :: StartOf(e, clk) }

  /** The runs of one clock: a start opens one (forgetting an open one), a stop closes it. */
  function RunsFrom(c: Clock, es: seq<Event>, open: Option<int>): seq<Span> {
    if es == [] then (if open.Some? then [Span(c, open.value, None)] else [])
    else if StartOf(es[0], c.index) then RunsFrom(c, es[1..], Some(es[0].t))
    else if StopOf(es[0], c.index) && open.Some? then [Span(c, open.value, Some(es[0].t))] + RunsFrom(c, es[1..], None)
    else RunsFrom(c, es[1..], open)
  }

  /** A free clock that no event starts runs from its phase. */
  function ClockRuns(v: Vec, c: Clock): seq<Span> {
    if !c.free then [] else RunsFrom(c, v.events, if Explicit(v, c.index) then None else Some(c.phase))
  }

  /** `free_runs`, clock by clock. */
  function FreeRuns(v: Vec): seq<Span> { RunsOf(v, v.clocks) }

  function RunsOf(v: Vec, cs: seq<Clock>): seq<Span> {
    if cs == [] then [] else ClockRuns(v, cs[0]) + RunsOf(v, cs[1..])
  }

  function High(c: Clock): int { c.period * c.duty / 100 }

  function LastTime(v: Vec): int { if v.events == [] then 0 else v.events[|v.events| - 1].t }

  /** The last instant at which a run may still have an edge. */
  function Limit(v: Vec, r: Span): int { if r.stop.None? then LastTime(v) else r.stop.value - 1 }

  /** `free_clock_edges` for one run, from the rise at `t` on. */
  function EdgesFrom(c: Clock, t: int, limit: int): seq<Event>
    requires c.period > 0
    decreases limit - t
  {
    if t > limit then [] else
    [Edge(t, false, c.index, true)]
    + (if t + High(c) <= limit then [Edge(t + High(c), false, c.index, false)] else [])
    + EdgesFrom(c, t + c.period, limit)
  }

  function EdgesOf(v: Vec, runs: seq<Span>): seq<Event>
    requires forall r | r in runs :: r.clock.period > 0
  {
    if runs == [] then [] else EdgesFrom(runs[0].clock, runs[0].start, Limit(v, runs[0])) + EdgesOf(v, runs[1..])
  }

  /** `free_clock_edges`: the edges of every run, in time order. */
  function FreeEdges(v: Vec): seq<Event>
    requires ClocksOk(v)
  {
    RunClocks(v, v.clocks);
    Sort(EdgesOf(v, FreeRuns(v)), Time)
  }

  lemma {:induction false} RunsFromClock(c: Clock, es: seq<Event>, open: Option<int>)
    ensures forall r | r in RunsFrom(c, es, open) :: r.clock == c
  {
    if es != [] {
      if StartOf(es[0], c.index) {
        RunsFromClock(c, es[1..], Some(es[0].t));
      } else if StopOf(es[0], c.index) && open.Some? {
        RunsFromClock(c, es[1..], None);
      } else {
        RunsFromClock(c, es[1..], open);
      }
    }
  }

  lemma {:induction false} RunClocks(v: Vec, cs: seq<Clock>)
    ensures forall r | r in RunsOf(v, cs) :: r.clock in cs && r in ClockRuns(v, r.clock)
    ensures forall c, r | c in cs && r in ClockRuns(v, c) :: r in RunsOf(v, cs)
  {
    if cs != [] {
      RunClocks(v, cs[1..]);
      assert cs == [cs[0]] + cs[1..];
      forall r | r in ClockRuns(v, cs[0])
        ensures r.clock == cs[0]
      {
        RunsFromClock(cs[0], v.events, if Explicit(v, cs[0].index) then None else Some(cs[0].phase));
      }
    }
  }

  /** The loop of `free_clock_edges` over one run. */
  method RunEdges(c: Clock, start: int, limit: int) returns (out: seq<Event>)
    requires c.period > 0
    ensures out == EdgesFrom(c, start, limit)
  {
    out := [];
    var t := start;
    while t <= limit
      invariant out + EdgesFrom(c, t, limit) == EdgesFrom(c, start, limit)
      decreases limit - t
    {
      ghost var rest, was := EdgesFrom(c, t + c.period, limit), out;
      ghost var pair := [Edge(t, false, c.index, true)]
                        + if t + High(c) <= limit then [Edge(t + High(c), false, c.index, false)] else [];
      out := out + [Edge(t, false, c.index, true)];
      if t + High(c) <= limit {
        out := out + [Edge(t + High(c), false, c.index, false)];
      }
      assert out == was + pair;
      assert EdgesFrom(c, t, limit) == pair + rest;
      assert was + (pair + rest) == was + pair + rest;
      t := t + c.period;
    }
    assert out + [] == out;
  }

  // ---- what the expansion is -------------------------------------------------------------------------

  /** Whether the generator of a run started at `start` has an edge at `t`: a rise every period, a
      fall `High` later. */
  predicate Toggles(c: Clock, start: int, t: int, rise: bool)
    requires c.period > 0
  {
    t >= start && (t - start) % c.period == if rise then 0 else High(c)
  }

  lemma HighInside(c: Clock)
    requires c.period > 0 && 0 < c.duty < 100
    ensures 0 <= High(c) < c.period
  {
    assert c.period * c.duty < c.period * 100;
  }

  lemma ModShift(a: int, p: int)
    requires p > 0
    ensures (a - p) % p == a % p
  {
    var q, r := a / p, a % p;
    assert a - p == (q - 1) * p + r;
    ModIs(a - p, p, q - 1, r);
  }

  lemma Large(d: int, p: int)
    requires p > 0 && d >= 1
    ensures d * p >= p
  {}

  lemma SmallMultiple(d: int, p: int)
    requires p > 0 && -p < d * p < p
    ensures d == 0
  {
    if d >= 1 {
      Large(d, p);
    } else if d <= -1 {
      Large(-d, p);
    }
  }

  lemma ModIs(a: int, p: int, q: int, r: int)
    requires p > 0 && 0 <= r < p && a == q * p + r
    ensures a % p == r && a / p == q
  {
    var q', r' := a / p, a % p;
    assert a == q' * p + r';
    assert (q - q') * p == q * p - q' * p;
    SmallMultiple(q - q', p);
  }

  /** The expansion of a run is exactly the generator's edges up to the limit, each once. */
  lemma {:induction false} EdgesExact(c: Clock, start: int, limit: int)
    requires c.period > 0 && 0 <= High(c) < c.period
    ensures forall e | e in EdgesFrom(c, start, limit) ::
              e.Edge? && e == Edge(e.t, false, c.index, e.rise) && start <= e.t <= limit && Toggles(c, start, e.t, e.rise)
    ensures forall t, rise | start <= t <= limit && Toggles(c, start, t, rise) ::
              Edge(t, false, c.index, rise) in EdgesFrom(c, start, limit)
    decreases limit - start
  {
    if start <= limit {
      var rest := EdgesFrom(c, start + c.period, limit);
      EdgesExact(c, start + c.period, limit);
      ModIs(0, c.period, 0, 0);
      ModIs(High(c), c.period, 0, High(c));
      forall e | e in rest
        ensures Toggles(c, start, e.t, e.rise)
      {
        ModShift(e.t - start, c.period);
        assert e.t - (start + c.period) == e.t - start - c.period;
      }
      forall t, rise | start <= t <= limit && Toggles(c, start, t, rise)
        ensures Edge(t, false, c.index, rise) in EdgesFrom(c, start, limit)
      {
        if t >= start + c.period {
          ModShift(t - start, c.period);
          assert t - (start + c.period) == t - start - c.period;
          assert Edge(t, false, c.index, rise) in rest;
        } else {
          ModIs(t - start, c.period, 0, t - start);
        }
      }
    }
  }

  function Count(es: seq<Event>, rise: bool): nat {
    if es == [] then 0 else (if es[0].Edge? && es[0].rise == rise then 1 else 0) + Count(es[1..], rise)
  }

  lemma {:induction false} CountJoin(a: seq<Event>, b: seq<Event>, rise: bool)
    ensures Count(a + b, rise) == Count(a, rise) + Count(b, rise)
  {
    if a == [] {
      assert a + b == b;
    } else {
      assert (a + b)[1..] == a[1..] + b;
      CountJoin(a[1..], b, rise);
    }
  }

  /** A run stopped strictly inside a low phase has as many falls as rises, so it ends low. */
  lemma {:induction false} StoppedRunEndsLow(c: Clock, start: int, stop: int)
    requires c.period > 0 && 0 <= High(c) < c.period
    requires start <= stop && (stop - start) % c.period > High(c)
    ensures Count(EdgesFrom(c, start, stop - 1), true) == Count(EdgesFrom(c, start, stop - 1), false)
    decreases stop - start
  {
    if stop - start < c.period {
      ModIs(stop - start, c.period, 0, stop - start);
      assert EdgesFrom(c, start + c.period, stop - 1) == [];
      var a, b := [Edge(start, false, c.index, true)], [Edge(start + High(c), false, c.index, false)];
      assert EdgesFrom(c, start, stop - 1) == a + b;
      CountJoin(a, b, true);
      CountJoin(a, b, false);
    } else {
      ModShift(stop - start, c.period);
      assert stop - (start + c.period) == stop - start - c.period;
      var q, r := (stop - start) / c.period, (stop - start) % c.period;
      assert q >= 1;
      assert stop - start == q * c.period + r;
      assert start + c.period <= stop;
      StoppedRunEndsLow(c, start + c.period, stop);
      var a, b, rest := [Edge(start, false, c.index, true)], [Edge(start + High(c), false, c.index, false)],
                        EdgesFrom(c, start + c.period, stop - 1);
      assert start + High(c) <= stop - 1;
      assert EdgesFrom(c, start, stop - 1) == a + b + rest;
      CountJoin(a + b, rest, true);
      CountJoin(a, b, true);
      CountJoin(a + b, rest, false);
      CountJoin(a, b, false);
    }
  }

  /** ... and the generator, left running, would have no edge before the low phase ends, which is
      the earliest a restart may come. */
  lemma NoEdgeAfterStop(c: Clock, start: int, stop: int, t: int, rise: bool)
    requires c.period > 0 && 0 <= High(c) < c.period
    requires start <= stop && (stop - start) % c.period > High(c)
    requires stop <= t < stop + (c.period - (stop - start) % c.period)
    ensures !Toggles(c, start, t, rise)
  {
    var q, r := (stop - start) / c.period, (stop - start) % c.period;
    assert t - start == q * c.period + (r + (t - stop));
    ModIs(t - start, c.period, q, r + (t - stop));
  }
}
