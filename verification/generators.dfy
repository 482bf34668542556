/** One free-running clock: the edges its generator makes, time step by time step, against the edges
    of its runs. */
module Generators {
  import opened Wrap
  import opened Sorting
  import opened Stimulus
  import opened Validation
  import opened Compile
  import opened Testbench

  // ---- the edges of the runs at one time -------------------------------------------------------------

  function EdgeAt(c: Clock, start: int, t: int): seq<Event>
    requires c.period > 0
  {
    if Toggles(c, start, t, true) then [Edge(t, false, c.index, true)]
    else if Toggles(c, start, t, false) then [Edge(t, false, c.index, false)] else []
  }

  predicate Sound(c: Clock) { c.period > 0 && 0 < High(c) < c.period }

  lemma WithOne(e: Event, t: int)
    ensures With([e], t, Time) == if e.t == t then [e] else []
  {
    assert [e][1..] == [];
  }

  /** A run has at most one edge at a time, where its clock toggles. */
  lemma {:induction false} EdgesAt(c: Clock, start: int, limit: int, t: int)
    requires Sound(c)
    ensures With(EdgesFrom(c, start, limit), t, Time) == if t <= limit then EdgeAt(c, start, t) else []
    decreases limit - start
  {
    hide With, Toggles, High, EdgeAt;
    var all := EdgesFrom(c, start, limit);
    EdgesExact(c, start, limit);
    if t > limit {
      WithNone(all, t, Time);
    } else if start > limit {
      WithNone(all, t, Time);
      NotYet(c, start, t);
    } else {
      var rest := EdgesFrom(c, start + c.period, limit);
      var rise, fall := Edge(start, false, c.index, true), Edge(start + High(c), false, c.index, false);
      var one, two := [rise], if start + High(c) <= limit then [fall] else [];
      assert all == one + two + rest;
      WithJoin(one + two, rest, t, Time);
      WithJoin(one, two, t, Time);
      EdgesAt(c, start + c.period, limit, t);
      FirstPeriod(c, start, t);
      WithOne(rise, t);
      WithOne(fall, t);
      assert two == [] ==> With(two, t, Time) == [] by { WithNone([], t, Time); }
      hide EdgesFrom;
      assert With(all, t, Time) == With(one, t, Time) + With(two, t, Time) + With(rest, t, Time);
      if t < start + c.period { assert With(rest, t, Time) == []; }
    }
  }

  lemma NotYet(c: Clock, start: int, t: int)
    requires Sound(c) && t < start
    ensures EdgeAt(c, start, t) == []
  {}

  /** In its first period a run toggles at its start and `High` later; afterwards like the run that
      starts a period later. */
  lemma FirstPeriod(c: Clock, start: int, t: int)
    requires Sound(c)
    ensures t < start + c.period ==>
            EdgeAt(c, start, t) == (if t == start then [Edge(t, false, c.index, true)]
                                    else if t == start + High(c) then [Edge(t, false, c.index, false)] else [])
    ensures t >= start + c.period ==> EdgeAt(c, start, t) == EdgeAt(c, start + c.period, t)
    ensures t < start + c.period ==> EdgeAt(c, start + c.period, t) == []
  {
    if t >= start + c.period {
      ModShift(t - start, c.period);
      assert t - (start + c.period) == t - start - c.period;
    } else if t >= start {
      ModIs(t - start, c.period, 0, t - start);
    }
  }

  // ---- the runs, time step by time step --------------------------------------------------------------

  function OpenAfter(c: Clock, es: seq<Event>, open: Option<int>): Option<int>
    decreases es
  {
    if es == [] then open
    else OpenAfter(c, es[1..], if StartOf(es[0], c.index) then Some(es[0].t) else if StopOf(es[0], c.index) then None else open)
  }

  function ClosedIn(c: Clock, es: seq<Event>, open: Option<int>): seq<Span>
    decreases es
  {
    if es == [] then []
    else if StartOf(es[0], c.index) then ClosedIn(c, es[1..], Some(es[0].t))
    else if StopOf(es[0], c.index) && open.Some? then [Span(c, open.value, Some(es[0].t))] + ClosedIn(c, es[1..], None)
    else ClosedIn(c, es[1..], open)
  }

  lemma {:induction false} RunsSplit(c: Clock, a: seq<Event>, b: seq<Event>, open: Option<int>)
    ensures RunsFrom(c, a + b, open) == ClosedIn(c, a, open) + RunsFrom(c, b, OpenAfter(c, a, open))
    decreases a
  {
    if a == [] {
      assert a + b == b;
    } else {
      assert (a + b)[1..] == a[1..] + b && (a + b)[0] == a[0];
      RunsSplit(c, a[1..], b, if StartOf(a[0], c.index) then Some(a[0].t) else if StopOf(a[0], c.index) then None else open);
      if StopOf(a[0], c.index) && open.Some? {
        var one := [Span(c, open.value, Some(a[0].t))];
        var x, y := ClosedIn(c, a[1..], None), RunsFrom(c, b, OpenAfter(c, a[1..], None));
        assert one + (x + y) == one + x + y;
      }
    }
  }

  lemma {:induction false} ClosedStops(c: Clock, es: seq<Event>, open: Option<int>)
    ensures forall r | r in ClosedIn(c, es, open) :: r.clock == c && r.stop.Some? && exists e :: e in es && e.t == r.stop.value
    decreases es
  {
    if es != [] {
      assert es == [es[0]] + es[1..];
      if StartOf(es[0], c.index) {
        ClosedStops(c, es[1..], Some(es[0].t));
      } else if StopOf(es[0], c.index) && open.Some? {
        ClosedStops(c, es[1..], None);
        assert es[0] in es;
      } else {
        ClosedStops(c, es[1..], open);
      }
    }
  }

  lemma {:induction false} EdgesJoin(v: Vec, a: seq<Span>, b: seq<Span>)
    requires forall r | r in a + b :: r.clock.period > 0
    ensures EdgesOf(v, a + b) == EdgesOf(v, a) + EdgesOf(v, b)
    decreases a
  {
    if a == [] {
      assert a + b == b;
    } else {
      assert (a + b)[1..] == a[1..] + b && (a + b)[0] == a[0];
      EdgesJoin(v, a[1..], b);
      var h := EdgesFrom(a[0].clock, a[0].start, Limit(v, a[0]));
      assert h + (EdgesOf(v, a[1..]) + EdgesOf(v, b)) == h + EdgesOf(v, a[1..]) + EdgesOf(v, b);
    }
  }

  /** Runs that are over have no more edges. */
  lemma {:induction false} OverRuns(v: Vec, runs: seq<Span>, t: int)
    requires forall r | r in runs :: r.clock.period > 0 && Sound(r.clock) && Limit(v, r) < t
    ensures With(EdgesOf(v, runs), t, Time) == []
    decreases runs
  {
    if runs != [] {
      assert runs[0] in runs;
      EdgesAt(runs[0].clock, runs[0].start, Limit(v, runs[0]), t);
      OverRuns(v, runs[1..], t);
      WithJoin(EdgesFrom(runs[0].clock, runs[0].start, Limit(v, runs[0])), EdgesOf(v, runs[1..]), t, Time);
    }
  }

  /** Runs yet to start have none either. */
  lemma {:induction false} FutureRuns(v: Vec, runs: seq<Span>, t: int)
    requires forall r | r in runs :: r.clock.period > 0 && Sound(r.clock) && r.start > t
    ensures With(EdgesOf(v, runs), t, Time) == []
    decreases runs
  {
    if runs != [] {
      assert runs[0] in runs;
      EdgesAt(runs[0].clock, runs[0].start, Limit(v, runs[0]), t);
      FutureRuns(v, runs[1..], t);
      WithJoin(EdgesFrom(runs[0].clock, runs[0].start, Limit(v, runs[0])), EdgesOf(v, runs[1..]), t, Time);
    }
  }

  /** The run of an open start counts unless the next event of its clock is another start. */
  predicate NextIsStart(c: Clock, es: seq<Event>)
    decreases es
  {
    es != [] && (StartOf(es[0], c.index) || (!StopOf(es[0], c.index) && NextIsStart(c, es[1..])))
  }

  lemma {:induction false} RunStarts(c: Clock, es: seq<Event>, open: Option<int>, t: int)
    requires forall e | e in es :: e.t > t
    requires open.Some? && open.value <= t ==> NextIsStart(c, es)
    ensures forall r | r in RunsFrom(c, es, open) :: r.clock == c && r.start > t
    decreases es
  {
    if es != [] {
      assert es[0] in es;
      if StartOf(es[0], c.index) {
        RunStarts(c, es[1..], Some(es[0].t), t);
      } else if StopOf(es[0], c.index) && open.Some? {
        RunStarts(c, es[1..], None, t);
      } else {
        RunStarts(c, es[1..], open, t);
      }
    }
  }

  /** The edges at `t` of the run open at `t`, with all later events still to come. */
  lemma {:induction false} OpenRunAt(v: Vec, c: Clock, es: seq<Event>, s: int, t: int)
    requires Sound(c) && s <= t <= LastTime(v) && (forall e | e in es :: e.t > t) && !NextIsStart(c, es)
    ensures forall r | r in RunsFrom(c, es, Some(s)) :: r.clock == c
    ensures With(EdgesOf(v, RunsFrom(c, es, Some(s))), t, Time) == EdgeAt(c, s, t)
    decreases es
  {
    RunsFromClock(c, es, Some(s));
    if es == [] {
      OneRun(v, Span(c, s, None), [], t);
    } else if StopOf(es[0], c.index) {
      assert es[0] in es;
      RunStarts(c, es[1..], None, t);
      OneRun(v, Span(c, s, Some(es[0].t)), RunsFrom(c, es[1..], None), t);
    } else {
      OpenRunAt(v, c, es[1..], s, t);
    }
  }

  lemma OneRun(v: Vec, r: Span, later: seq<Span>, t: int)
    requires Sound(r.clock) && t <= Limit(v, r) && forall x | x in later :: x.clock.period > 0 && Sound(x.clock) && x.start > t
    ensures With(EdgesOf(v, [r] + later), t, Time) == EdgeAt(r.clock, r.start, t)
  {
    var all := [r] + later;
    assert all[1..] == later && all[0] == r;
    EdgesAt(r.clock, r.start, Limit(v, r), t);
    FutureRuns(v, later, t);
    WithJoin(EdgesFrom(r.clock, r.start, Limit(v, r)), EdgesOf(v, later), t, Time);
  }

  // ---- what is open at a time ------------------------------------------------------------------------

  function EventsAt(v: Vec, t: int): seq<Event> { With(v.events, t, Time) }

  function EventsOn(v: Vec, t: int): seq<Event> { From(v.events, t, Time) }

  /** The run of the clock that is open before the events of `t`. */
  function OpenAt(v: Vec, c: Clock, t: nat): Option<int> {
    if t == 0 then (if Explicit(v, c.index) then None else Some(c.phase))
    else OpenAfter(c, EventsAt(v, t - 1), OpenAt(v, c, t - 1))
  }

  ghost predicate InOrder(v: Vec) { SortedBy(v.events, Time) && forall e | e in v.events :: e.t >= 0 }

  function Gold(v: Vec, c: Clock, t: int): seq<Event>
    requires c.period > 0
  {
    RunsPeriods(v, c);
    With(EdgesOf(v, ClockRuns(v, c)), t, Time)
  }

  lemma RunsPeriods(v: Vec, c: Clock)
    ensures forall r | r in ClockRuns(v, c) :: r.clock == c
  {
    RunsFromClock(c, v.events, if Explicit(v, c.index) then None else Some(c.phase));
  }

  /** The runs that the events from `t` on make. */
  function RunsOn(v: Vec, c: Clock, t: nat): seq<Span> { RunsFrom(c, EventsOn(v, t), OpenAt(v, c, t)) }

  lemma RunsOnClock(v: Vec, c: Clock, t: nat)
    ensures forall r | r in RunsOn(v, c, t) :: r.clock == c
  {
    RunsFromClock(c, EventsOn(v, t), OpenAt(v, c, t));
  }

  /** The runs that the events of `t` close have no edge from `t` on. */
  lemma RunsStep(v: Vec, c: Clock, t: nat, at: int)
    requires InOrder(v) && Sound(c) && at >= t
    ensures forall r | r in RunsOn(v, c, t) + RunsOn(v, c, t + 1) :: r.clock == c
    ensures With(EdgesOf(v, RunsOn(v, c, t)), at, Time) == With(EdgesOf(v, RunsOn(v, c, t + 1)), at, Time)
  {
    RunsOnClock(v, c, t);
    RunsOnClock(v, c, t + 1);
    var a, open := EventsAt(v, t), OpenAt(v, c, t);
    FromSplit(v.events, t, Time);
    RunsSplit(c, a, EventsOn(v, t + 1), open);
    ClosedStops(c, a, open);
    hide RunsFrom, OpenAt, ClosedIn, EdgesOf, From;
    var closed, later := ClosedIn(c, a, open), RunsOn(v, c, t + 1);
    assert RunsOn(v, c, t) == closed + later;
    EdgesJoin(v, closed, later);
    forall r | r in closed
      ensures Limit(v, r) < at
    {
      var e :| e in a && e.t == r.stop.value;
      WithIn(v.events, t, Time);
    }
    OverRuns(v, closed, at);
    WithJoin(EdgesOf(v, closed), EdgesOf(v, later), at, Time);
    assert [] + With(EdgesOf(v, later), at, Time) == With(EdgesOf(v, later), at, Time);
  }

  /** From `t` on the clock's edges are those of the runs that the events from `t` on make. */
  lemma {:induction false} GoldOn(v: Vec, c: Clock, t: nat, at: int)
    requires InOrder(v) && Sound(c) && c.free && at >= t
    ensures forall r | r in RunsOn(v, c, t) :: r.clock == c
    ensures Gold(v, c, at) == With(EdgesOf(v, RunsOn(v, c, t)), at, Time)
  {
    hide EdgesOf, With, RunsFrom, EventsAt;
    RunsOnClock(v, c, t);
    if t == 0 {
      FromAll(v.events, 0, Time);
      assert RunsOn(v, c, 0) == ClockRuns(v, c);
    } else {
      hide RunsOn, ClockRuns;
      GoldOn(v, c, t - 1, at);
      RunsStep(v, c, t - 1, at);
    }
  }

  /** The edge of the clock at `t`. */
  lemma GoldNow(v: Vec, c: Clock, t: nat)
    requires InOrder(v) && Sound(c) && c.free && t <= LastTime(v)
    ensures var open := OpenAt(v, c, t + 1);
            Gold(v, c, t) == if open.Some? && open.value <= t && !NextIsStart(c, EventsOn(v, t + 1))
                             then EdgeAt(c, open.value, t) else []
  {
    GoldOn(v, c, t, t);
    RunsStep(v, c, t, t);
    RunsOnClock(v, c, t + 1);
    FromIn(v.events, t + 1, Time);
    hide EdgesOf, From, OpenAt;
    var b, next := EventsOn(v, t + 1), OpenAt(v, c, t + 1);
    if next.Some? && next.value <= t && !NextIsStart(c, b) {
      OpenRunAt(v, c, b, next.value, t);
    } else {
      RunStarts(c, b, next, t);
      FutureRuns(v, RunsOn(v, c, t + 1), t);
    }
  }

  // ---- the generator ---------------------------------------------------------------------------------

  datatype Action = Stay | Begin | Halt

  /** What the words of the events do to the generator of the clock. */
  function ActionIn(c: Clock, es: seq<Event>): Action
    decreases es
  {
    if es == [] then Stay
    else if StartOf(es[0], c.index) then Begin
    else if StopOf(es[0], c.index) then Halt
    else ActionIn(c, es[1..])
  }

  /** The words that start the clock by itself come at its phase, unless END comes first. */
  predicate StartsAt(v: Vec, c: Clock, t: int) {
    !Explicit(v, c.index) && t == c.phase && !(Ended(v) && t == LastTime(v))
  }

  function ActionAt(v: Vec, c: Clock, t: int): Action {
    if c.free && StartsAt(v, c, t) then Begin else ActionIn(c, EventsAt(v, t))
  }

  function Effect(g: Gen, c: Clock, a: Action): Gen {
    match a
    case Stay => g
    case Begin => g.(hi := High(c), lo := c.period - High(c), en := true)
    case Halt => g.(en := false)
  }

  /** The generator after a time step, and what it does in it: before the words if resumed early, and
      after them. */
  function GenNext(g: Gen, c: Clock, a: Action, t: int, early: bool): Gen {
    Act(Effect(if early then Act(g, t).0 else g, c, a), t).0
  }

  function Opt(x: Option<bool>): seq<bool> { if x.Some? then [x.value] else [] }

  function GenFlips(g: Gen, c: Clock, a: Action, t: int, early: bool): seq<bool> {
    (if early then Opt(Act(g, t).1) else []) + Opt(Act(Effect(if early then Act(g, t).0 else g, c, a), t).1)
  }

  const IDLE := Gen(0, 0, false, None, false)

  function GenAt(v: Vec, c: Clock, t: nat, order: Order): Gen {
    if t == 0 then IDLE else GenNext(GenAt(v, c, t - 1, order), c, ActionAt(v, c, t - 1), t - 1, c.index in order(t - 1))
  }

  function FlipsAt(v: Vec, c: Clock, t: nat, order: Order): seq<bool> {
    GenFlips(GenAt(v, c, t, order), c, ActionAt(v, c, t), t, c.index in order(t))
  }

  /** Between its toggles: the current delay ends at the next one. */
  predicate Running(c: Clock, g: Gen, s: int, t: int)
    requires c.period > 0
  {
    && g.en && g.hi == High(c) && g.lo == c.period - High(c) && g.due.Some?
    && t <= g.due.value && s < g.due.value
    && if g.high then g.due.value - High(c) < t && (g.due.value - s) % c.period == High(c)
       else g.due.value - (c.period - High(c)) < t && (g.due.value - s) % c.period == 0
  }

  /** Stopped: waiting, or in the rest of its last low phase, which any restart outlasts. */
  predicate Cooling(c: Clock, g: Gen, es: seq<Event>, t: int) {
    && !g.en && !g.high
    && (g.due.Some? ==> t <= g.due.value && forall e | e in es && StartOf(e, c.index) :: e.t >= g.due.value)
  }

  /** How the generator stands before the events of `t`, `es` being the events from `t` on. */
  predicate Follows(c: Clock, g: Gen, open: Option<int>, es: seq<Event>, explicit: bool, t: nat)
    requires c.period > 0
  {
    && (open.None? ==> Cooling(c, g, es, t))
    && (open.Some? && open.value < t ==> Running(c, g, open.value, t) && !NextIsStart(c, es))
    && (open.Some? && open.value >= t ==> !explicit && open.value == c.phase)
    && (!explicit && t <= c.phase ==> g == IDLE)
  }

  predicate GenInv(v: Vec, c: Clock, g: Gen, t: nat)
    requires c.period > 0
  {
    Follows(c, g, OpenAt(v, c, t), EventsOn(v, t), Explicit(v, c.index), t)
  }

  // ---- toggles -----------------------------------------------------------------------------------------

  lemma ModMinus(a: int, p: int, d: int)
    requires p > 0 && 0 <= d <= a % p
    ensures (a - d) % p == a % p - d
  {
    ModIs(a - d, p, a / p, a % p - d);
  }

  lemma ModBelow(a: int, p: int, d: int)
    requires p > 0 && 0 < d < p && a % p == 0
    ensures (a - d) % p == p - d
  {
    assert a == a / p * p;
    assert (a / p - 1) * p == a / p * p - p;
    ModIs(a - d, p, a / p - 1, p - d);
  }

  lemma ModPlus(a: int, p: int, d: int)
    requires p > 0 && 0 <= d && a % p + d < p
    ensures (a + d) % p == a % p + d
  {
    ModIs(a + d, p, a / p, a % p + d);
  }

  lemma ModUp(a: int, p: int, d: int)
    requires p > 0 && 0 < d && a % p + d == p
    ensures (a + d) % p == 0
  {
    assert (a / p + 1) * p == a / p * p + p;
    ModIs(a + d, p, a / p + 1, 0);
  }

  /** While it runs, a generator toggles exactly when its run does. */
  lemma RunningToggles(c: Clock, g: Gen, s: int, t: int)
    requires Sound(c) && s < t && Running(c, g, s, t)
    ensures var (n, f) := Act(g, t);
            && EdgeAt(c, s, t) == (if f.Some? then [Edge(t, false, c.index, f.value)] else [])
            && Running(c, n, s, t + 1) && Act(n, t).1 == None && Act(n, t).0 == n
  {
    var u := g.due.value;
    if t == u {
      if g.high { ModUp(u - s, c.period, c.period - High(c)); } else { ModPlus(u - s, c.period, High(c)); }
    } else if g.high {
      ModMinus(u - s, c.period, u - t);
    } else {
      ModBelow(u - s, c.period, u - t);
    }
  }

  /** The position of a stop that is allowed is in the low phase, whose end is the end of the delay. */
  lemma RunningStops(c: Clock, g: Gen, s: int, t: int)
    requires Sound(c) && s < t && Running(c, g, s, t) && (t - s) % c.period > High(c)
    ensures !g.high && g.due.value == t + (c.period - (t - s) % c.period) && t < g.due.value
    ensures EdgeAt(c, s, t) == []
  {
    var u := g.due.value;
    if g.high {
      ModMinus(u - s, c.period, u - t);
    } else if t < u {
      ModBelow(u - s, c.period, u - t);
    }
  }

  /** A generator that starts: its first rise is at once. */
  lemma Starts(c: Clock, g: Gen, t: int, early: bool)
    requires Sound(c) && !g.en && !g.high && (g.due.Some? ==> g.due.value == t)
    ensures GenFlips(g, c, Begin, t, early) == [true] && Running(c, GenNext(g, c, Begin, t, early), t, t + 1)
    ensures EdgeAt(c, t, t) == [Edge(t, false, c.index, true)]
  {
    ModIs(High(c), c.period, 0, High(c));
    ModIs(0, c.period, 0, 0);
  }

  // ---- one time step -----------------------------------------------------------------------------------

  /** A stimulus without simultaneous events whose free clocks have both phases and stop inside a low one. */
  ghost predicate Clean(v: Vec) {
    && ClocksOk(v) && InOrder(v) && Ordered(v.events) && Cotimed(v.events) && (forall e | e in v.events :: !e.sim)
    && (forall c | c in v.clocks && c.free :: Sound(c))
    && StopsOk(v)
  }

  /** Events that share a time are all sets. */
  lemma Alike(v: Vec, t: int)
    requires Clean(v)
    ensures |EventsAt(v, t)| > 1 ==> forall e | e in EventsAt(v, t) :: e.Set?
  {
    hide StopsOk;
    var es := v.events;
    WithIn(es, t, Time);
    if |EventsAt(v, t)| > 1 {
      WithTwo(es, t, Time, 0, 1);
      var i, j :| 0 <= i < j < |es| && es[i] == EventsAt(v, t)[0] && es[j] == EventsAt(v, t)[1];
      assert es[i] in EventsAt(v, t) && es[j] in EventsAt(v, t);
      assert es[i] in es && !es[i].sim;
      assert AllSetsAt(es, t);
    }
  }

  /** At most one event of the time step starts or stops the clock. */
  lemma ActionCases(v: Vec, c: Clock, t: int)
    requires Clean(v)
    ensures var a := EventsAt(v, t);
            match ActionIn(c, a)
            case Stay => (forall e | e in a :: !StartOf(e, c.index) && !StopOf(e, c.index))
            case Begin => |a| == 1 && StartOf(a[0], c.index) && a[0].t == t && a[0] in v.events
            case Halt => |a| == 1 && StopOf(a[0], c.index) && a[0].t == t && a[0] in v.events
  {
    hide Clean;
    Alike(v, t);
    var a := EventsAt(v, t);
    WithIn(v.events, t, Time);
    if |a| > 1 {
      NoAction(c, a);
    } else if |a| == 1 {
      assert a[0] in With(v.events, t, Time) && a[1..] == [];
      assert Time(a[0]) == t && a[0] in v.events;
      assert ActionIn(c, a[1..]) == Stay;
      forall e | e in a
        ensures e == a[0]
      {}
    }
  }

  lemma {:induction false} NoAction(c: Clock, es: seq<Event>)
    requires forall e | e in es :: !StartOf(e, c.index) && !StopOf(e, c.index)
    ensures ActionIn(c, es) == Stay
    ensures forall open :: OpenAfter(c, es, open) == open
    ensures forall b :: NextIsStart(c, es + b) <==> NextIsStart(c, b)
    decreases es
  {
    if es != [] {
      assert es[0] in es;
      NoAction(c, es[1..]);
      forall b
        ensures NextIsStart(c, es + b) <==> NextIsStart(c, b)
      {
        assert (es + b)[1..] == es[1..] + b && (es + b)[0] == es[0];
      }
    } else {
      forall b: seq<Event>
        ensures es + b == b
      {}
    }
  }

  /** The generator starts exactly when a run does, and one that the next start does not forget. */
  predicate GoodAt(v: Vec, c: Clock, t: nat) {
    && (ActionAt(v, c, t) == Begin <==> OpenAt(v, c, t + 1) == Some(t))
    && (ActionAt(v, c, t) == Begin ==> !NextIsStart(c, EventsOn(v, t + 1)))
  }

  function Shown(c: Clock, t: int, flips: seq<bool>): seq<Event> {
    if flips == [] then [] else [Edge(t, false, c.index, flips[0])] + Shown(c, t, flips[1..])
  }

  lemma ShownOne(c: Clock, t: int, x: Option<bool>)
    ensures Shown(c, t, Opt(x)) == if x.Some? then [Edge(t, false, c.index, x.value)] else []
    ensures Shown(c, t, Opt(x) + Opt(None)) == Shown(c, t, Opt(x)) == Shown(c, t, Opt(None) + Opt(x))
  {
    assert Opt(x) + [] == Opt(x) && [] + Opt(x) == Opt(x);
  }

  lemma NoStarts(v: Vec, c: Clock, t: int)
    requires !Explicit(v, c.index)
    ensures !NextIsStart(c, EventsOn(v, t))
  {
    FromIn(v.events, t, Time);
    NoneNext(c, EventsOn(v, t));
  }

  lemma {:induction false} NoneNext(c: Clock, es: seq<Event>)
    requires forall e | e in es :: !StartOf(e, c.index)
    ensures !NextIsStart(c, es)
    decreases es
  {
    if es != [] {
      assert es[0] in es;
      NoneNext(c, es[1..]);
    }
  }

  ghost predicate Agrees(v: Vec, c: Clock, g: Gen, t: nat, early: bool)
    requires c.period > 0
  {
    && (Gold(v, c, t) == Shown(c, t, GenFlips(g, c, ActionAt(v, c, t), t, early)) <==> GoodAt(v, c, t))
    && (GoodAt(v, c, t) ==> GenInv(v, c, GenNext(g, c, ActionAt(v, c, t), t, early), t + 1))
  }

  lemma PhaseEdge(c: Clock, t: int)
    requires Sound(c)
    ensures EdgeAt(c, t, t) == [Edge(t, false, c.index, true)]
  {
    ModIs(0, c.period, 0, 0);
  }

  lemma RunsOnIn(v: Vec, c: Clock, t: nat, r: Span)
    requires InOrder(v) && c.free && r in RunsOn(v, c, t)
    ensures r in ClockRuns(v, c)
    decreases t
  {
    if t == 0 {
      FromAll(v.events, 0, Time);
    } else {
      var open := OpenAt(v, c, t - 1);
      FromSplit(v.events, t - 1, Time);
      RunsSplit(c, EventsAt(v, t - 1), EventsOn(v, t), open);
      hide ClosedIn, From, With, RunsFrom;
      var closed := ClosedIn(c, EventsAt(v, t - 1), open);
      assert RunsOn(v, c, t - 1) == closed + RunsOn(v, c, t);
      assert r in RunsOn(v, c, t - 1);
      RunsOnIn(v, c, t - 1, r);
    }
  }

  /** A run that a stop closes is one of the clock's, so the stop is inside a low phase. */
  lemma StopInside(v: Vec, c: Clock, s: int, t: nat)
    requires Clean(v) && c in v.clocks && c.free && Sound(c) && OpenAt(v, c, t) == Some(s)
    requires ActionIn(c, EventsAt(v, t)) == Halt
    ensures StopOk(v, Span(c, s, Some(t)))
  {
    ActionCases(v, c, t);
    FromSplit(v.events, t, Time);
    var a := EventsAt(v, t);
    assert EventsOn(v, t)[0] == a[0];
    var r := Span(c, s, Some(t));
    assert RunsOn(v, c, t)[0] == r;
    RunsOnIn(v, c, t, r);
    RunClocks(v, v.clocks);
    assert r in FreeRuns(v);
  }

  lemma NotEnded(v: Vec, c: Clock, t: int)
    requires Clean(v) && ActionIn(c, EventsAt(v, t)) == Halt
    ensures !(Ended(v) && t == LastTime(v))
  {
    ActionCases(v, c, t);
    WithIn(v.events, t, Time);
    assert Ended(v) ==> v.events[|v.events| - 1] in v.events;
  }

  /** What a step does to the open run, by what happens in it. */
  lemma StepFacts(v: Vec, c: Clock, t: nat)
    requires Clean(v) && c in v.clocks && c.free && Sound(c)
    ensures var open, next, now, rest := OpenAt(v, c, t), OpenAt(v, c, t + 1), EventsOn(v, t), EventsOn(v, t + 1);
            && (forall e | e in rest :: e in now && e in v.events && e.t > t)
            && match ActionIn(c, EventsAt(v, t))
               case Stay => next == open && (NextIsStart(c, now) <==> NextIsStart(c, rest))
               case Begin => next == Some(t) && Explicit(v, c.index) && NextIsStart(c, now)
                             && exists e :: e in now && StartOf(e, c.index) && e.t == t
               case Halt => next == None
  {
    ActionCases(v, c, t);
    FromSplit(v.events, t, Time);
    FromIn(v.events, t + 1, Time);
    FromIn(v.events, t, Time);
    var a, now, rest := EventsAt(v, t), EventsOn(v, t), EventsOn(v, t + 1);
    assert now == a + rest;
    forall e | e in rest
      ensures e in now && e in v.events && e.t > t
    {
      assert e in From(v.events, t + 1, Time);
    }
    hide Clean, From, With;
    if ActionIn(c, a) == Stay { NoAction(c, a); } else { OneAction(c, a, rest, OpenAt(v, c, t)); }
  }

  lemma OneAction(c: Clock, a: seq<Event>, rest: seq<Event>, open: Option<int>)
    requires |a| == 1
    ensures OpenAfter(c, a, open) == if StartOf(a[0], c.index) then Some(a[0].t) else if StopOf(a[0], c.index) then None else open
    ensures StartOf(a[0], c.index) ==> NextIsStart(c, a + rest)
    ensures a[0] in a + rest
  {
    assert a[1..] == [] && (a + rest)[0] == a[0];
  }

  /** What one step asks of a generator and leaves it in, on values: the edge the runs have, the flips
      the generator makes and whether the step is good. */
  ghost predicate Keeps(c: Clock, gold: seq<Event>, flips: seq<bool>, good: bool,
                        g: Gen, next: Option<int>, rest: seq<Event>, explicit: bool, t: nat)
    requires c.period > 0
  {
    (gold == Shown(c, t, flips) <==> good) && (good ==> Follows(c, g, next, rest, explicit, t + 1))
  }

  function GoldOf(c: Clock, next: Option<int>, rest: seq<Event>, t: int): seq<Event>
    requires c.period > 0
  {
    if next.Some? && next.value <= t && !NextIsStart(c, rest) then EdgeAt(c, next.value, t) else []
  }

  lemma BeginStep(c: Clock, g: Gen, open: Option<int>, now: seq<Event>, next: Option<int>, rest: seq<Event>, explicit: bool,
                  t: nat, early: bool)
    requires Sound(c) && Follows(c, g, open, now, explicit, t) && (forall e | e in rest :: e.t > t)
    requires next.Some? && explicit ==> next.value == t
    requires explicit ==> NextIsStart(c, now) && exists e :: e in now && StartOf(e, c.index) && e.t == t
    requires !explicit ==> t == c.phase && !NextIsStart(c, rest) && (next.Some? ==> next == Some(t))
    ensures Keeps(c, GoldOf(c, next, rest, t), GenFlips(g, c, Begin, t, early), next == Some(t) && !NextIsStart(c, rest),
                  GenNext(g, c, Begin, t, early), next, rest, explicit, t)
  {
    hide NextIsStart, Toggles;
    Starts(c, g, t, early);
    PhaseEdge(c, t);
    hide GenFlips, GenNext, EdgeAt, Running;
    assert Shown(c, t, [true]) == [Edge(t, false, c.index, true)];
  }

  lemma StayStep(c: Clock, g: Gen, open: Option<int>, now: seq<Event>, rest: seq<Event>, explicit: bool, t: nat, early: bool)
    requires Sound(c) && Follows(c, g, open, now, explicit, t) && (forall e | e in rest :: e in now && e.t > t)
    requires NextIsStart(c, now) <==> NextIsStart(c, rest)
    requires !explicit ==> !NextIsStart(c, rest)
    ensures Keeps(c, GoldOf(c, open, rest, t), GenFlips(g, c, Stay, t, early), open != Some(t),
                  GenNext(g, c, Stay, t, early), open, rest, explicit, t)
  {
    hide NextIsStart, Toggles;
    if open.Some? && open.value < t {
      RunningToggles(c, g, open.value, t);
      ShownOne(c, t, Act(g, t).1);
      hide EdgeAt, Running, Act;
    } else {
      PhaseEdge(c, t);
      hide EdgeAt, Running;
      assert GenFlips(g, c, Stay, t, early) == [];
    }
  }

  lemma HaltStep(c: Clock, g: Gen, open: Option<int>, now: seq<Event>, rest: seq<Event>, explicit: bool, t: nat, early: bool)
    requires Sound(c) && Follows(c, g, open, now, explicit, t) && (forall e | e in rest :: e in now && e.t > t)
    requires open.Some? && open.value < t ==>
               var pos := (t - open.value) % c.period;
               pos > High(c) && forall e | e in rest && StartOf(e, c.index) :: e.t >= t + (c.period - pos)
    ensures Keeps(c, GoldOf(c, None, rest, t), GenFlips(g, c, Halt, t, early), true,
                  GenNext(g, c, Halt, t, early), None, rest, explicit, t)
  {
    hide NextIsStart, Toggles;
    if open.Some? && open.value < t { RunningStops(c, g, open.value, t); }
    hide EdgeAt;
    assert GenFlips(g, c, Halt, t, early) == [];
  }

  lemma BeginTick(v: Vec, c: Clock, g: Gen, t: nat, early: bool)
    requires Clean(v) && c in v.clocks && c.free && Sound(c) && t <= LastTime(v) && GenInv(v, c, g, t)
    requires ActionAt(v, c, t) == Begin
    ensures Agrees(v, c, g, t, early)
  {
    hide OpenAt, EventsOn, EventsAt, Toggles, NextIsStart, ActionIn, Explicit, GenFlips, GenNext, EdgeAt, Gold, Follows, Clean, LastTime, Shown, From;
    CleanOrder(v);
    GoldNow(v, c, t);
    StepFacts(v, c, t);
    if StartsAt(v, c, t) {
      NoStarts(v, c, t + 1);
      ImplicitOnly(v, c, t + 1);
    }
    BeginStep(c, g, OpenAt(v, c, t), EventsOn(v, t), OpenAt(v, c, t + 1), EventsOn(v, t + 1), Explicit(v, c.index), t, early);
  }

  /** A clock that no event starts is open from its phase until an event stops it. */
  lemma {:induction false} ImplicitOpen(v: Vec, c: Clock, t: nat)
    requires InOrder(v) && !Explicit(v, c.index)
    ensures OpenAt(v, c, t) == if exists e :: e in v.events && StopOf(e, c.index) && e.t < t then None else Some(c.phase)
  {
    if t > 0 {
      ImplicitOpen(v, c, t - 1);
      WithIn(v.events, t - 1, Time);
      OpenWithout(c, EventsAt(v, t - 1), OpenAt(v, c, t - 1));
      if e :| e in v.events && StopOf(e, c.index) && e.t < t {
        assert e.t == t - 1 ==> e in EventsAt(v, t - 1);
      }
    }
  }

  lemma ImplicitOnly(v: Vec, c: Clock, t: nat)
    requires InOrder(v) && !Explicit(v, c.index)
    ensures OpenAt(v, c, t).Some? ==> OpenAt(v, c, t) == Some(c.phase)
  {
    ImplicitOpen(v, c, t);
  }

  lemma {:induction false} OpenWithout(c: Clock, es: seq<Event>, open: Option<int>)
    requires forall e | e in es :: !StartOf(e, c.index)
    ensures OpenAfter(c, es, open) == if exists e :: e in es && StopOf(e, c.index) then None else open
    decreases es
  {
    if es != [] {
      assert es == [es[0]] + es[1..];
      assert es[0] in es;
      OpenWithout(c, es[1..], if StopOf(es[0], c.index) then None else open);
    }
  }

  lemma StayTick(v: Vec, c: Clock, g: Gen, t: nat, early: bool)
    requires Clean(v) && c in v.clocks && c.free && Sound(c) && t <= LastTime(v) && GenInv(v, c, g, t)
    requires ActionAt(v, c, t) == Stay
    ensures Agrees(v, c, g, t, early)
  {
    hide OpenAt, EventsOn, EventsAt, Toggles, NextIsStart, ActionIn, Explicit, GenFlips, GenNext, EdgeAt, Gold, Follows, Clean, LastTime, Shown, From;
    CleanOrder(v);
    GoldNow(v, c, t);
    StepFacts(v, c, t);
    if !Explicit(v, c.index) { NoStarts(v, c, t + 1); }
    StayStep(c, g, OpenAt(v, c, t), EventsOn(v, t), EventsOn(v, t + 1), Explicit(v, c.index), t, early);
  }

  lemma CleanOrder(v: Vec)
    requires Clean(v)
    ensures InOrder(v)
  {}

  lemma HaltTick(v: Vec, c: Clock, g: Gen, t: nat, early: bool)
    requires Clean(v) && c in v.clocks && c.free && Sound(c) && t <= LastTime(v) && GenInv(v, c, g, t)
    requires ActionAt(v, c, t) == Halt
    ensures Agrees(v, c, g, t, early)
  {
    hide OpenAt, EventsOn, EventsAt, Toggles, NextIsStart, ActionIn, Explicit, GenFlips, GenNext, EdgeAt, Gold, Follows, Clean, LastTime, Shown, From;
    CleanOrder(v);
    GoldNow(v, c, t);
    StepFacts(v, c, t);
    NotEnded(v, c, t);
    var open := OpenAt(v, c, t);
    if open.Some? && open.value < t { StopInside(v, c, open.value, t); }
    HaltStep(c, g, open, EventsOn(v, t), EventsOn(v, t + 1), Explicit(v, c.index), t, early);
  }

  /** One time step of one clock: the generator shows the edge of the runs exactly when the step is good,
      and then keeps following them. */
  lemma ClockTick(v: Vec, c: Clock, g: Gen, t: nat, early: bool)
    requires Clean(v) && c in v.clocks && c.free && Sound(c) && t <= LastTime(v) && GenInv(v, c, g, t)
    ensures Agrees(v, c, g, t, early)
  {
    hide Clean, GenInv, Agrees, Sound;
    match ActionAt(v, c, t)
    case Stay => StayTick(v, c, g, t, early);
    case Begin => BeginTick(v, c, g, t, early);
    case Halt => HaltTick(v, c, g, t, early);
  }

  // ---- when the generator always follows the runs ------------------------------------------------------

  /** An event stops a clock at or before the phase at which it would start by itself. */
  predicate StoppedFirst(v: Vec, c: Clock) { exists e :: e in v.events && StopOf(e, c.index) && e.t <= c.phase }

  /** The stimulus ends at that phase. */
  predicate CutOff(v: Vec, c: Clock) { Ended(v) && c.phase == LastTime(v) }

  /** No clock is started while it runs, and one that starts by itself has not been stopped before. (When
      the stimulus ends right then, END keeps it from starting, so it must have been.) */
  predicate ClockOrderly(v: Vec, c: Clock) {
    && (forall e | e in v.events && StartOf(e, c.index) :: !NextIsStart(c, EventsOn(v, e.t + 1)))
    && (!Explicit(v, c.index) && c.phase <= LastTime(v) ==> (StoppedFirst(v, c) <==> CutOff(v, c)))
  }

  /** An open run has started, or is one that starts by itself. */
  lemma {:induction false} OpenPast(v: Vec, c: Clock, t: nat)
    requires InOrder(v)
    ensures OpenAt(v, c, t).Some? ==> OpenAt(v, c, t).value < t || (!Explicit(v, c.index) && OpenAt(v, c, t).value == c.phase)
  {
    if t > 0 {
      OpenPast(v, c, t - 1);
      WithIn(v.events, t - 1, Time);
      OpenFrom(c, EventsAt(v, t - 1), OpenAt(v, c, t - 1), t - 1);
    }
  }

  lemma {:induction false} OpenFrom(c: Clock, es: seq<Event>, open: Option<int>, t: int)
    requires forall e | e in es :: e.t == t
    ensures OpenAfter(c, es, open) in {None, Some(t), open}
    decreases es
  {
    if es != [] {
      assert es[0] in es;
      OpenFrom(c, es[1..], if StartOf(es[0], c.index) then Some(es[0].t) else if StopOf(es[0], c.index) then None else open, t);
    }
  }

  lemma StartStep(v: Vec, c: Clock, e: Event)
    requires Clean(v) && e in v.events && StartOf(e, c.index)
    ensures ActionIn(c, EventsAt(v, e.t)) == Begin && Explicit(v, c.index) && e.t <= LastTime(v)
  {
    ActionCases(v, c, e.t);
    WithIn(v.events, e.t, Time);
    assert e in EventsAt(v, e.t);
    var i :| 0 <= i < |v.events| && v.events[i] == e;
    assert i < |v.events| - 1 ==> Time(v.events[i]) <= Time(v.events[|v.events| - 1]);
  }

  lemma ImplicitGood(v: Vec, c: Clock, t: nat)
    requires Clean(v) && c in v.clocks && c.free && Sound(c) && !Explicit(v, c.index)
    ensures GoodAt(v, c, t) <==> (t == c.phase ==> (StoppedFirst(v, c) <==> CutOff(v, c)))
  {
    StepFacts(v, c, t);
    ImplicitOpen(v, c, t + 1);
    NoStarts(v, c, t + 1);
    hide Clean, OpenAt, EventsOn, EventsAt, NextIsStart, ActionIn;
    assert t == c.phase ==> (StoppedFirst(v, c) <==> exists e :: e in v.events && StopOf(e, c.index) && e.t < t + 1);
  }

  lemma ExplicitGood(v: Vec, c: Clock, t: nat)
    requires Clean(v) && c in v.clocks && c.free && Sound(c) && Explicit(v, c.index)
    ensures GoodAt(v, c, t) <==>
            forall e | e in v.events && StartOf(e, c.index) && e.t == t :: !NextIsStart(c, EventsOn(v, t + 1))
  {
    StepFacts(v, c, t);
    OpenPast(v, c, t);
    ActionCases(v, c, t);
    forall e | e in v.events && StartOf(e, c.index) && e.t == t
      ensures ActionIn(c, EventsAt(v, t)) == Begin
    {
      StartStep(v, c, e);
    }
    hide Clean, OpenAt, EventsOn, NextIsStart, ActionIn;
  }

  lemma OrderlyGood(v: Vec, c: Clock)
    requires Clean(v) && c in v.clocks && c.free && Sound(c)
    ensures ClockOrderly(v, c) <==> forall t: nat | t <= LastTime(v) :: GoodAt(v, c, t)
  {
    forall t: nat | t <= LastTime(v)
      ensures if Explicit(v, c.index)
              then GoodAt(v, c, t) <==> forall e | e in v.events && StartOf(e, c.index) && e.t == t :: !NextIsStart(c, EventsOn(v, t + 1))
              else GoodAt(v, c, t) <==> (t == c.phase ==> (StoppedFirst(v, c) <==> CutOff(v, c)))
    {
      if Explicit(v, c.index) { ExplicitGood(v, c, t); } else { ImplicitGood(v, c, t); }
    }
    forall e | e in v.events && StartOf(e, c.index)
      ensures 0 <= e.t <= LastTime(v) && Explicit(v, c.index)
    {
      StartStep(v, c, e);
    }
    assert c.phase >= 0 by { PhaseOk(v, c); }
    hide Clean, GoodAt, NextIsStart, EventsOn, StoppedFirst, CutOff;
    if forall t: nat | t <= LastTime(v) :: GoodAt(v, c, t) {
      forall e | e in v.events && StartOf(e, c.index)
        ensures !NextIsStart(c, EventsOn(v, e.t + 1))
      {
        assert GoodAt(v, c, e.t);
      }
      assert c.phase <= LastTime(v) ==> GoodAt(v, c, c.phase);
    }
  }

  lemma PhaseOk(v: Vec, c: Clock)
    requires Clean(v) && c in v.clocks
    ensures c.phase >= 0
  {
    var i :| 0 <= i < |v.clocks| && v.clocks[i] == c;
  }

  /** Before its first time step a generator follows. */
  lemma StartFollows(v: Vec, c: Clock)
    requires Clean(v) && c in v.clocks && c.free && Sound(c)
    ensures GenInv(v, c, IDLE, 0)
  {
    PhaseOk(v, c);
  }

  /** A free clock of a compiled stimulus has exactly the edges of its runs, time step by time step
      through the last event, if and only if it is orderly. */
  lemma ClockExact(v: Vec, c: Clock, order: Order)
    requires Clean(v) && c in v.clocks && c.free && Sound(c)
    ensures (forall t: nat | t <= LastTime(v) :: Gold(v, c, t) == Shown(c, t, FlipsAt(v, c, t, order))) <==> ClockOrderly(v, c)
  {
    OrderlyGood(v, c);
    FollowsWhileGood(v, c, LastTime(v) + 1, order);
  }

  ghost predicate GoodUntil(v: Vec, c: Clock, t: int) { forall k: nat | k < t :: GoodAt(v, c, k) }

  ghost predicate SameUntil(v: Vec, c: Clock, t: int, order: Order)
    requires c.period > 0
  {
    forall k: nat | k < t :: Gold(v, c, k) == Shown(c, k, FlipsAt(v, c, k, order))
  }

  lemma UntilStep(v: Vec, c: Clock, t: nat, order: Order)
    requires c.period > 0
    ensures GoodUntil(v, c, t + 1) <==> GoodUntil(v, c, t) && GoodAt(v, c, t)
    ensures SameUntil(v, c, t + 1, order) <==> SameUntil(v, c, t, order) && Gold(v, c, t) == Shown(c, t, FlipsAt(v, c, t, order))
  {
    hide GoodAt, Gold, Shown, FlipsAt;
  }

  lemma AtTick(v: Vec, c: Clock, t: nat, order: Order)
    requires Clean(v) && c in v.clocks && c.free && Sound(c) && t <= LastTime(v) && GenInv(v, c, GenAt(v, c, t, order), t)
    ensures Gold(v, c, t) == Shown(c, t, FlipsAt(v, c, t, order)) <==> GoodAt(v, c, t)
    ensures GoodAt(v, c, t) ==> GenInv(v, c, GenAt(v, c, t + 1, order), t + 1)
  {
    hide Clean, GoodAt, GenInv, Gold, Shown, ActionAt, GenFlips, GenNext, LastTime;
    ClockTick(v, c, GenAt(v, c, t, order), t, c.index in order(t));
  }

  lemma UntilNone(v: Vec, c: Clock, t: int, order: Order)
    requires Clean(v) && c in v.clocks && c.free && Sound(c) && t <= 0
    ensures GoodUntil(v, c, t) && SameUntil(v, c, t, order)
    ensures t == 0 ==> GenInv(v, c, GenAt(v, c, t, order), t)
  {
    hide GoodAt, Gold, Shown, FlipsAt, GenInv, Clean;
    StartFollows(v, c);
  }

  lemma {:induction false} FollowsWhileGood(v: Vec, c: Clock, t: int, order: Order)
    requires Clean(v) && c in v.clocks && c.free && Sound(c) && t <= LastTime(v) + 1
    ensures GoodUntil(v, c, t) <==> SameUntil(v, c, t, order)
    ensures GoodUntil(v, c, t) && t >= 0 ==> GenInv(v, c, GenAt(v, c, t, order), t)
    decreases t
  {
    hide Clean, GoodAt, GenInv, Gold, Shown, GenAt, FlipsAt, GoodUntil, SameUntil, LastTime;
    if t <= 0 {
      UntilNone(v, c, t, order);
    } else {
      FollowsWhileGood(v, c, t - 1, order);
      UntilStep(v, c, t - 1, order);
      if GoodUntil(v, c, t - 1) { AtTick(v, c, t - 1, order); }
    }
  }
}
