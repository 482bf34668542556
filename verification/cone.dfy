/** Tracing the cone of a forced register to the ports it depends on (`trace` of
    verilatorize/analyze.py): the triggers, which reach it by data alone, and the enablers, which reach
    it through a clock. */
module Cone {
  import opened Wrap

  /** One driver of a signal: what it reads, the clocks it waits for, whether it is a non-blocking
      assignment, and the helper instance whose output it is (with the output's signal inside, if any). */
  datatype Driver = Driver(data: set<string>, clocks: set<string>, nba: bool, helper: Option<(nat, Option<string>)>)

  /** A module: its inputs, the signals driven by modules of other files, the drivers, the variables
      proved never written, and the helper instances of its own file. */
  datatype Mod = Mod(name: string, top: bool, inputs: set<string>, opaqueNets: set<string>, drivers: map<string, seq<Driver>>,
                     constants: set<string>, helpers: seq<Mod>)

  /** A signal, and whether it was reached through a clock. */
  type State = (string, bool)

  predicate Root(m: Mod, s: string) { "glbl." <= s || s in m.inputs }

  function DriversOf(m: Mod, s: string): seq<Driver> { if s in m.drivers then m.drivers[s] else [] }

  /** A driver of `a` has `b` as an input, as data or as a clock. */
  predicate Hop(m: Mod, a: string, b: string, clocked: bool) {
    !Root(m, a) && exists d :: d in DriversOf(m, a) && b in (if clocked then d.clocks else d.data)
  }

  /** One step of the trace: a clock edge is remembered from then on. */
  predicate Leads(m: Mod, a: State, b: State) {
    (b.1 == a.1 && Hop(m, a.0, b.0, false)) || (b.1 && Hop(m, a.0, b.0, true))
  }

  predicate Trail(m: Mod, p: seq<State>) { p != [] && forall i :: 0 <= i < |p| - 1 ==> Leads(m, p[i], p[i + 1]) }

  ghost predicate Reached(m: Mod, start: set<string>, x: State) {
    exists p: seq<State> :: Trail(m, p) && p[0].0 in start && !p[0].1 && p[|p| - 1] == x
  }

  // ---- data edges and clock edges --------------------------------------------------------------------

  /** A walk backwards over the drivers: signals, and for every hop whether it is a clock edge. */
  predicate Back(m: Mod, ss: seq<string>, clocked: seq<bool>) {
    |ss| == |clocked| + 1 && forall i :: 0 <= i < |clocked| ==> Hop(m, ss[i], ss[i + 1], clocked[i])
  }

  /** Reached by data edges only. */
  ghost predicate ByData(m: Mod, start: set<string>, s: string) {
    exists ss, clocked :: Back(m, ss, clocked) && ss[0] in start && ss[|ss| - 1] == s && true !in clocked
  }

  /** Reached through at least one clock edge. */
  ghost predicate ByClock(m: Mod, start: set<string>, s: string) {
    exists ss, clocked :: Back(m, ss, clocked) && ss[0] in start && ss[|ss| - 1] == s && true in clocked
  }

  /** The state of the trace remembers exactly whether a clock edge was taken. */
  lemma ReachedBy(m: Mod, start: set<string>, s: string)
    ensures Reached(m, start, (s, false)) <==> ByData(m, start, s)
    ensures Reached(m, start, (s, true)) <==> ByClock(m, start, s)
  {
    if p: seq<State> :| Trail(m, p) && p[0].0 in start && !p[0].1 && p[|p| - 1] == (s, false) { var ss, clocked := Edges(m, p); }
    if p: seq<State> :| Trail(m, p) && p[0].0 in start && !p[0].1 && p[|p| - 1] == (s, true) { var ss, clocked := Edges(m, p); }
    if ss, clocked :| Back(m, ss, clocked) && ss[0] in start && ss[|ss| - 1] == s && true !in clocked { BackReaches(m, start, ss, clocked); }
    if ss, clocked :| Back(m, ss, clocked) && ss[0] in start && ss[|ss| - 1] == s && true in clocked { BackReaches(m, start, ss, clocked); }
  }

  lemma {:induction false} Edges(m: Mod, p: seq<State>) returns (ss: seq<string>, clocked: seq<bool>)
    requires Trail(m, p) && !p[0].1
    ensures Back(m, ss, clocked) && ss[0] == p[0].0 && ss[|ss| - 1] == p[|p| - 1].0 && (true in clocked <==> p[|p| - 1].1)
    decreases |p|
  {
    hide Hop;
    if |p| == 1 {
      ss, clocked := [p[0].0], [];
    } else {
      var n := |p| - 2;
      TrailInit(m, p);
      var b := p[n + 1];
      assert Leads(m, p[n], b);
      var was, c := Edges(m, p[..n + 1]);
      var hop := !(b.1 == p[n].1 && Hop(m, p[n].0, b.0, false));
      BackNext(m, was, c, b.0, hop);
      ss, clocked := was + [b.0], c + [hop];
    }
  }

  lemma TrailInit(m: Mod, p: seq<State>)
    requires Trail(m, p) && |p| > 1
    ensures Trail(m, p[..|p| - 1])
  {
    hide Leads;
    var q := p[..|p| - 1];
    forall i | 0 <= i < |q| - 1
      ensures Leads(m, q[i], q[i + 1])
    {
      assert Leads(m, p[i], p[i + 1]);
    }
  }

  lemma BackNext(m: Mod, ss: seq<string>, clocked: seq<bool>, b: string, hop: bool)
    requires Back(m, ss, clocked) && Hop(m, ss[|ss| - 1], b, hop)
    ensures Back(m, ss + [b], clocked + [hop])
    ensures true in clocked + [hop] <==> true in clocked || hop
  {
    hide Hop;
    var t, c := ss + [b], clocked + [hop];
    assert hop in c && forall x :: x in c <==> x in clocked || x == hop;
    forall i | 0 <= i < |c|
      ensures Hop(m, t[i], t[i + 1], c[i])
    {
      if i < |clocked| { assert Hop(m, ss[i], ss[i + 1], clocked[i]); }
    }
  }

  lemma BackInit(m: Mod, ss: seq<string>, clocked: seq<bool>)
    requires Back(m, ss, clocked) && |ss| > 1
    ensures Back(m, ss[..|ss| - 1], clocked[..|clocked| - 1]) && Hop(m, ss[|ss| - 2], ss[|ss| - 1], clocked[|clocked| - 1])
    ensures true in clocked <==> true in clocked[..|clocked| - 1] || clocked[|clocked| - 1]
  {
    hide Hop;
    var n := |clocked| - 1;
    var t, c := ss[..n + 1], clocked[..n];
    assert clocked == c + [clocked[n]];
    assert forall x :: x in clocked <==> x in c || x == clocked[n];
    forall i | 0 <= i < |c|
      ensures Hop(m, t[i], t[i + 1], c[i])
    {
      assert Hop(m, ss[i], ss[i + 1], clocked[i]);
    }
    assert Hop(m, ss[n], ss[n + 1], clocked[n]);
  }

  lemma {:induction false} BackReaches(m: Mod, start: set<string>, ss: seq<string>, clocked: seq<bool>)
    requires Back(m, ss, clocked) && ss[0] in start
    ensures Reached(m, start, (ss[|ss| - 1], true in clocked))
    decreases |ss|
  {
    hide Hop, Reached;
    if |ss| == 1 {
      ReachedStart(m, start, ss[0]);
    } else {
      BackInit(m, ss, clocked);
      BackReaches(m, start, ss[..|ss| - 1], clocked[..|clocked| - 1]);
      ReachedNext(m, start, (ss[|ss| - 2], true in clocked[..|clocked| - 1]), (ss[|ss| - 1], true in clocked));
    }
  }

  lemma ReachedNext(m: Mod, start: set<string>, a: State, b: State)
    requires Reached(m, start, a) && Leads(m, a, b)
    ensures Reached(m, start, b)
  {
    hide Leads;
    var p: seq<State> :| Trail(m, p) && p[0].0 in start && !p[0].1 && p[|p| - 1] == a;
    var q := p + [b];
    forall i | 0 <= i < |q| - 1
      ensures Leads(m, q[i], q[i + 1])
    {
      if i < |p| - 1 { assert Leads(m, p[i], p[i + 1]); }
    }
    assert Trail(m, q) && q[0] == p[0];
  }

  lemma ReachedStart(m: Mod, start: set<string>, s: string)
    requires s in start
    ensures Reached(m, start, (s, false))
  {
    assert Trail(m, [(s, false)]);
  }

  lemma {:induction false} TrailStays(m: Mod, seen: set<State>, p: seq<State>)
    requires Trail(m, p) && p[0] in seen && forall a, b | a in seen && Leads(m, a, b) :: b in seen
    ensures p[|p| - 1] in seen
    decreases |p|
  {
    if |p| > 1 {
      assert Leads(m, p[0], p[1]);
      var q := p[1..];
      forall i | 0 <= i < |q| - 1
        ensures Leads(m, q[i], q[i + 1])
      {
        assert Leads(m, p[i + 1], p[i + 2]);
      }
      TrailStays(m, seen, q);
    }
  }

  // ---- what must be resolved -------------------------------------------------------------------------

  /** A signal the trace may meet: a root, a constant, or driven from inside the file, whose helper
      outputs can be traced in turn. */
  ghost predicate Resolved(m: Mod, s: string)
    decreases m, 2
  {
    || Root(m, s)
    || (s !in m.opaqueNets && if DriversOf(m, s) == [] then s in m.constants else AllTraced(m, DriversOf(m, s)))
  }

  ghost predicate AllTraced(m: Mod, ds: seq<Driver>)
    decreases m, 1
  {
    forall d | d in ds :: HelperTraced(m, d)
  }

  ghost predicate HelperTraced(m: Mod, d: Driver)
    decreases m, 0
  {
    d.helper.Some? ==>
      d.helper.value.1.Some? && d.helper.value.0 < |m.helpers| && Traceable(m.helpers[d.helper.value.0], {d.helper.value.1.value})
  }

  /** Everything that is reached is resolved. */
  ghost predicate Traceable(m: Mod, start: set<string>)
    decreases m, 3
  {
    forall x | Reached(m, start, x) :: Resolved(m, x.0)
  }

  /** The non-blocking drivers of the cone, those inside helper instances included. */
  ghost predicate InSink(m: Mod, start: set<string>, n: string)
    decreases m, 3
  {
    exists x :: Reached(m, start, x) && !Root(m, x.0) && DriverSink(m, x.0, n)
  }

  ghost predicate DriverSink(m: Mod, s: string, n: string)
    decreases m, 2
  {
    ((exists c :: c in DriversOf(m, s) && c.nba) && n == Label(m, s)) || AnySink(m, DriversOf(m, s), n)
  }

  ghost predicate AnySink(m: Mod, ds: seq<Driver>, n: string)
    decreases m, 1
  {
    exists d :: d in ds && HelperSink(m, d, n)
  }

  ghost predicate HelperSink(m: Mod, d: Driver, n: string)
    decreases m, 0
  {
    d.helper.Some? && d.helper.value.1.Some? && d.helper.value.0 < |m.helpers|
    && InSink(m.helpers[d.helper.value.0], {d.helper.value.1.value}, n)
  }

  function Label(m: Mod, s: string): string { if m.top then s else m.name + "." + s }

  // ---- the worklist ----------------------------------------------------------------------------------

  datatype Traced = Traced(triggers: set<string>, enablers: set<string>, nba: set<string>)

  function Successors(d: Driver, via: bool): set<State> { (set r | r in d.data :: (r, via)) + (set c | c in d.clocks :: (c, true)) }

  /** Every signal that may be met. */
  function Names(m: Mod, start: set<string>): set<string> {
    start + (set s, d, r | s in m.drivers && d in m.drivers[s] && r in d.data + d.clocks :: r)
  }

  function States(names: set<string>): set<State> { set s, b | s in names && b in {false, true} :: (s, b) }

  /** `through_helper`: the cone inside the helper instance that drives a signal. */
  method Helper(m: Mod, d: Driver) returns (ok: bool, nba: set<string>)
    ensures ok <==> HelperTraced(m, d)
    ensures ok ==> forall n :: n in nba <==> HelperSink(m, d, n)
    decreases m, 0
  {
    hide Traceable, InSink, ByData, ByClock;
    if d.helper.None? { return true, {}; }
    if d.helper.value.1.None? || d.helper.value.0 >= |m.helpers| { return false, {}; }
    var child := m.helpers[d.helper.value.0];
    assert child in m.helpers;
    var r := Trace(child, {d.helper.value.1.value});
    if r.None? { return false, {}; }
    return true, r.value.nba;
  }

  ghost predicate Gathered(ds: seq<Driver>, via: bool, next: set<State>) {
    forall y :: y in next <==> exists d :: d in ds && y in Successors(d, via)
  }

  ghost predicate Sinking(m: Mod, ds: seq<Driver>, nba: set<string>) {
    forall n :: n in nba <==> AnySink(m, ds, n)
  }

  lemma OneMore(m: Mod, ds: seq<Driver>, d: Driver, via: bool, next: set<State>, nba: set<string>, sink: set<string>)
    requires AllTraced(m, ds) && Gathered(ds, via, next) && Sinking(m, ds, nba)
    requires HelperTraced(m, d) && forall n :: n in sink <==> HelperSink(m, d, n)
    ensures AllTraced(m, ds + [d]) && Gathered(ds + [d], via, next + Successors(d, via)) && Sinking(m, ds + [d], nba + sink)
  {
    hide HelperTraced, HelperSink, Successors;
    assert d in ds + [d] && forall e :: e in ds + [d] <==> e in ds || e == d;
    forall n
      ensures AnySink(m, ds + [d], n) <==> AnySink(m, ds, n) || HelperSink(m, d, n)
    {}
  }

  /** What the drivers of one signal add to the worklist, tracing helper outputs on the way. */
  method Drivers(m: Mod, x: State) returns (ok: bool, next: set<State>, nba: set<string>)
    requires !Root(m, x.0) && x.0 !in m.opaqueNets && DriversOf(m, x.0) != []
    ensures ok <==> Resolved(m, x.0)
    ensures ok ==> forall y :: y in next <==> Leads(m, x, y)
    ensures ok ==> forall n :: n in nba <==> DriverSink(m, x.0, n)
    decreases m, 1
  {
    hide Root, HelperTraced, HelperSink, Successors, Leads, DriversOf;
    var ds := DriversOf(m, x.0);
    next, nba := {}, {};
    for i := 0 to |ds|
      invariant AllTraced(m, ds[..i]) && Gathered(ds[..i], x.1, next) && Sinking(m, ds[..i], nba)
    {
      var d := ds[i];
      assert d in ds && ds[..i + 1] == ds[..i] + [d];
      var traced, sink := Helper(m, d);
      if !traced { return false, {}, {}; }
      OneMore(m, ds[..i], d, x.1, next, nba, sink);
      next, nba := next + Successors(d, x.1), nba + sink;
    }
    assert ds[..|ds|] == ds;
    ok := true;
    SuccessorsLead(m, x);
    if exists d :: d in ds && d.nba { nba := nba + {Label(m, x.0)}; }
  }

  lemma SuccessorsLead(m: Mod, x: State)
    requires !Root(m, x.0)
    ensures forall y :: (exists d :: d in DriversOf(m, x.0) && y in Successors(d, x.1)) <==> Leads(m, x, y)
  {
    forall y: State, d: Driver
      ensures y in Successors(d, x.1) <==> (y.0 in d.data && y.1 == x.1) || (y.0 in d.clocks && y.1)
    {}
  }

  /** The trace answers with exactly the roots reached by data alone, those reached through a clock and
      not by data, and the non-blocking drivers on the way. */
  ghost predicate Exact(m: Mod, start: set<string>, t: Traced) {
    && (forall s :: s in t.triggers <==> Root(m, s) && ByData(m, start, s))
    && (forall s :: s in t.enablers <==> Root(m, s) && ByClock(m, start, s) && !ByData(m, start, s))
    && (forall n :: n in t.nba <==> InSink(m, start, n))
  }

  /** What the worklist keeps: all that was seen is reached and resolved, and every step from it is seen or waiting. */
  ghost predicate Tracing(m: Mod, start: set<string>, work: seq<State>, seen: set<State>) {
    && (forall x :: x in work || x in seen ==> Reached(m, start, x) && x in States(Names(m, start)))
    && (forall x :: x in seen ==> Resolved(m, x.0))
    && (forall x, y :: x in seen && Leads(m, x, y) ==> y in seen || y in work)
    && (forall s :: s in start ==> (s, false) in seen || (s, false) in work)
  }

  ghost predicate Sorted(m: Mod, seen: set<State>, roots: set<string>, via: bool) {
    forall s :: s in roots <==> Root(m, s) && (s, via) in seen
  }

  ghost predicate Sunk(m: Mod, seen: set<State>, nba: set<string>) {
    forall n :: n in nba <==> exists x :: x in seen && !Root(m, x.0) && DriverSink(m, x.0, n)
  }

  /** `trace`; None is a refusal: the model cannot be transformed. */
  method Trace(m: Mod, start: set<string>) returns (r: Option<Traced>)
    ensures r.Some? <==> Traceable(m, start)
    ensures r.Some? ==> Exact(m, start, r.value)
    decreases m, 2
  {
    hide *;
    r := None;
    var work := Pushed([], set s | s in start :: (s, false));
    var trig, en, nba, seen := {}, {}, {}, {};
    TracingStarts(m, start, work);
    while work != []
      invariant Tracing(m, start, work, seen)
      invariant Sorted(m, seen, trig, false) && Sorted(m, seen, en, true) && Sunk(m, seen, nba)
      decreases States(Names(m, start)) - seen, |work|
    {
      var x, rest := work[|work| - 1], work[..|work| - 1];
      if x in seen {
        TracingSkips(m, start, work, seen);
        work := rest;
        continue;
      }
      WaitingReached(m, start, work, seen, x);
      Undriven(m, x);
      if Root(m, x.0) {
        TracingMoves(m, start, work, seen, {}, rest);
        RootSeen(m, seen, x, trig, en, nba);
        if x.1 { en := en + {x.0}; } else { trig := trig + {x.0}; }
        work, seen := rest, seen + {x};
      } else if x.0 in m.opaqueNets {
        RefusedAt(m, start, x);
        return;
      } else if DriversOf(m, x.0) == [] {
        if x.0 !in m.constants {
          RefusedAt(m, start, x);
          return;
        }
        TracingMoves(m, start, work, seen, {}, rest);
        InnerSeen(m, seen, x, trig, en, nba, {});
        assert nba + {} == nba;
        work, seen := rest, seen + {x};
      } else {
        var ok, next, sink := Drivers(m, x);
        if !ok {
          RefusedAt(m, start, x);
          return;
        }
        var more := Pushed(rest, next);
        TracingMoves(m, start, work, seen, next, more);
        InnerSeen(m, seen, x, trig, en, nba, sink);
        work, seen, nba := more, seen + {x}, nba + sink;
      }
    }
    TraceEnds(m, start, seen, trig, en, nba);
    r := Some(Traced(trig, en - trig, nba));
  }

  /** The worklist, with what a signal's drivers add to it. */
  method Pushed(work: seq<State>, next: set<State>) returns (r: seq<State>)
    ensures forall x :: x in r <==> x in work || x in next
  {
    r := work;
    var left := next;
    while left != {}
      invariant left <= next && forall x :: x in r <==> x in work || x in next - left
      decreases left
    {
      var s :| s in left;
      r, left := r + [s], left - {s};
    }
  }

  lemma TracingStarts(m: Mod, start: set<string>, work: seq<State>)
    requires forall x :: x in work <==> x in (set s | s in start :: (s, false))
    ensures Tracing(m, start, work, {}) && Sorted(m, {}, {}, false) && Sorted(m, {}, {}, true) && Sunk(m, {}, {})
  {
    forall s | s in start
      ensures Reached(m, start, (s, false))
    {
      ReachedStart(m, start, s);
    }
  }

  lemma TracingSkips(m: Mod, start: set<string>, work: seq<State>, seen: set<State>)
    requires Tracing(m, start, work, seen) && work != [] && work[|work| - 1] in seen
    ensures Tracing(m, start, work[..|work| - 1], seen)
  {
    hide Leads, Resolved, Reached, States, Names;
    assert work == work[..|work| - 1] + [work[|work| - 1]];
  }

  lemma WaitingReached(m: Mod, start: set<string>, work: seq<State>, seen: set<State>, x: State)
    requires Tracing(m, start, work, seen) && x in work
    ensures Reached(m, start, x) && x in States(Names(m, start))
  {
    hide Leads, Resolved, Reached, States, Names;
  }

  lemma RefusedAt(m: Mod, start: set<string>, x: State)
    requires Reached(m, start, x) && !Resolved(m, x.0)
    ensures !Traceable(m, start)
  {
    hide Reached, Resolved;
  }

  /** What there is to decide about a signal without drivers of its own. */
  lemma Undriven(m: Mod, x: State)
    ensures Root(m, x.0) ==> Resolved(m, x.0)
    ensures !Root(m, x.0) && x.0 in m.opaqueNets ==> !Resolved(m, x.0)
    ensures !Root(m, x.0) && x.0 !in m.opaqueNets && DriversOf(m, x.0) == [] ==> (Resolved(m, x.0) <==> x.0 in m.constants)
    ensures Root(m, x.0) || DriversOf(m, x.0) == [] ==> forall y :: !Leads(m, x, y)
    ensures DriversOf(m, x.0) == [] ==> forall n :: !DriverSink(m, x.0, n)
  {}

  /** A step from a signal that may be met leads to one that may be met. */
  lemma NamesClosed(m: Mod, start: set<string>, x: State, y: State)
    requires Leads(m, x, y)
    ensures y in States(Names(m, start))
  {
    var d :| d in DriversOf(m, x.0) && (y.0 in d.data || y.0 in d.clocks);
    assert y.0 in d.data + d.clocks;
    assert y.0 in Names(m, start);
  }

  lemma TracingMoves(m: Mod, start: set<string>, work: seq<State>, seen: set<State>, next: set<State>, more: seq<State>)
    requires Tracing(m, start, work, seen) && work != [] && Resolved(m, work[|work| - 1].0)
    requires forall y :: y in next <==> Leads(m, work[|work| - 1], y)
    requires forall y :: y in more <==> y in work[..|work| - 1] || y in next
    ensures Tracing(m, start, more, seen + {work[|work| - 1]})
  {
    hide Leads, Resolved, Reached, States, Names;
    var x := work[|work| - 1];
    assert work == work[..|work| - 1] + [x];
    assert x in work;
    forall y | y in next
      ensures Reached(m, start, y) && y in States(Names(m, start))
    {
      ReachedNext(m, start, x, y);
      NamesClosed(m, start, x, y);
    }
  }

  lemma RootSeen(m: Mod, seen: set<State>, x: State, trig: set<string>, en: set<string>, nba: set<string>)
    requires Sorted(m, seen, trig, false) && Sorted(m, seen, en, true) && Sunk(m, seen, nba) && Root(m, x.0)
    ensures Sorted(m, seen + {x}, if x.1 then trig else trig + {x.0}, false)
    ensures Sorted(m, seen + {x}, if x.1 then en + {x.0} else en, true)
    ensures Sunk(m, seen + {x}, nba)
  {
    hide Root, DriverSink;
  }

  lemma InnerSeen(m: Mod, seen: set<State>, x: State, trig: set<string>, en: set<string>, nba: set<string>, sink: set<string>)
    requires Sorted(m, seen, trig, false) && Sorted(m, seen, en, true) && Sunk(m, seen, nba) && !Root(m, x.0)
    requires forall n :: n in sink <==> DriverSink(m, x.0, n)
    ensures Sorted(m, seen + {x}, trig, false) && Sorted(m, seen + {x}, en, true) && Sunk(m, seen + {x}, nba + sink)
  {
    hide Root, DriverSink;
  }

  lemma SeenIsReached(m: Mod, start: set<string>, seen: set<State>)
    requires Tracing(m, start, [], seen)
    ensures forall x :: x in seen <==> Reached(m, start, x)
    ensures forall x :: Reached(m, start, x) ==> Resolved(m, x.0)
  {
    hide Leads, Resolved, Root, States, Names;
    forall x | Reached(m, start, x)
      ensures x in seen
    {
      var p: seq<State> :| Trail(m, p) && p[0].0 in start && !p[0].1 && p[|p| - 1] == x;
      assert p[0] == (p[0].0, false);
      TrailStays(m, seen, p);
    }
  }

  lemma TraceEnds(m: Mod, start: set<string>, seen: set<State>, trig: set<string>, en: set<string>, nba: set<string>)
    requires Tracing(m, start, [], seen) && Sorted(m, seen, trig, false) && Sorted(m, seen, en, true) && Sunk(m, seen, nba)
    ensures Traceable(m, start) && Exact(m, start, Traced(trig, en - trig, nba))
  {
    hide Leads, Reached, Resolved, Root, ByData, ByClock, DriverSink, InSink, States, Names;
    SeenIsReached(m, start, seen);
    forall s
      ensures (s, false) in seen <==> ByData(m, start, s)
      ensures (s, true) in seen <==> ByClock(m, start, s)
    {
      ReachedBy(m, start, s);
    }
    forall n
      ensures n in nba <==> InSink(m, start, n)
    {
      SinkOf(m, start, seen, n);
    }
  }

  lemma SinkOf(m: Mod, start: set<string>, seen: set<State>, n: string)
    requires forall x :: x in seen <==> Reached(m, start, x)
    ensures InSink(m, start, n) <==> exists x :: x in seen && !Root(m, x.0) && DriverSink(m, x.0, n)
  {
    hide Reached, Root;
  }
}
