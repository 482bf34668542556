/** How long the settle time of a builder must be (stimgen.py): exactly when every stimulus it can build
    is clear of the release of GSR. */
module BuilderSettle {
  import opened Wrap
  import opened Sorting
  import opened Stimulus
  import opened Validation
  import opened BuilderFacts
  import opened BuilderState
  import Decimal

  /** A port that `set` may set outside a block. */
  ghost predicate HasData(m: DutMap) { exists p :: DataPort(m, p) }

  predicate DataPort(m: DutMap, p: string) {
    InBits(m, p) != [] && ClsOf(m.bits, p).Some? && !(ClsOf(m.bits, p).value in {Async, Gate, ClockIn})
  }

  /** The settle time leaves the separation after the release; a map without data ports changes nothing
      before a gap has passed, so there a large gap does as well. */
  ghost predicate SettleEnough(c: Params) {
    c.settle >= ROC_WIDTH + c.sep || (c.gap >= ROC_WIDTH + c.sep && !HasData(c.m))
  }

  predicate Succeeds(c: Params, calls: seq<Call>) {
    Run(c, Start(c), calls).Some? && !Run(c, Start(c), calls).value.open
  }

  /** The last part of the guard: every event after initialisation is clear of the release. */
  predicate ClearAfter(v: Vec) { forall e | e in v.events && !Initial(e) :: e.t >= ROC_WIDTH + Sep(v) }

  // ---- no data ports: nothing before a gap -----------------------------------------------------------

  predicate Late(c: Params, s: Cursor) {
    && s.lastChange >= 0 && (s.open ==> s.t >= c.gap)
    && forall e | e in s.events :: Initial(e) || e.t >= c.gap
  }

  lemma LateEmit(c: Params, s: Cursor, op: Event)
    requires c.gap > 0 && Late(c, s) && s.t >= c.gap
    ensures var r := Emit(c, s, op); Late(c, r) && r.t >= c.gap && r.lastChange == s.lastChange && r.open == s.open
  {}

  lemma LatePut(c: Params, s: Cursor, a: Assign)
    requires c.gap > 0 && Late(c, s) && s.t >= c.gap && PutOk(c, s, a)
    ensures Late(c, Put(c, s, a)) && Put(c, s, a).t >= c.gap && Put(c, s, a).open == s.open
  {
    LateEmit(c, s, PutOp(c, s, a));
    hide Emit, PutOp, Taken;
  }

  lemma {:induction false} LatePutAll(c: Params, s: Cursor, args: seq<Assign>)
    requires c.gap > 0 && Late(c, s) && s.t >= c.gap && PutAll(c, s, args, true).Some?
    ensures Late(c, PutAll(c, s, args, true).value)
    decreases args
  {
    hide Late, Put, PutOk, Holds;
    if args != [] {
      if Holds(s, args[0]) {
        LatePutAll(c, s, args[1..]);
      } else {
        LatePut(c, s, args[0]);
        LatePutAll(c, Put(c, s, args[0]), args[1..]);
      }
    }
  }

  /** Without data ports a set outside a block sets nothing. */
  lemma {:induction false} SetsNothing(c: Params, s: Cursor, args: seq<Assign>)
    requires !s.open && !HasData(c.m) && (forall a | a in args :: Settable(c, s, a)) && PutAll(c, s, args, true).Some?
    ensures PutAll(c, s, args, true).value == s
    decreases args
  {
    if args != [] {
      assert args[0] in args && forall a | a in args[1..] :: a in args;
      assert !DataPort(c.m, args[0].port);
      SetsNothing(c, s, args[1..]);
    }
  }

  lemma {:induction false} LateInit(c: Params, s: Cursor, args: seq<Assign>)
    requires s.t == 0 && !s.open && (forall e | e in s.events :: Initial(e)) && PutAll(c, s, args, false).Some?
    ensures var r := PutAll(c, s, args, false).value; !r.open && forall e | e in r.events :: Initial(e)
    decreases args
  {
    if args != [] {
      var r := Put(c, s, args[0]);
      hide BitsOf, InBits;
      assert s.events != [] ==> Initial(s.events[|s.events| - 1]);
      assert r.t == 0;
      LateInit(c, r, args[1..]);
    }
  }

  lemma LateInitialised(c: Params, s: Cursor, args: seq<Assign>)
    requires c.gap > 0 && Late(c, s) && Initialised(c, s, args).Some?
    ensures Late(c, Initialised(c, s, args).value)
  {
    LateInit(c, s.(t := 0), args);
  }

  lemma LateSet(c: Params, s: Cursor, args: seq<Assign>)
    requires c.gap > 0 && !HasData(c.m) && Late(c, s) && SetDone(c, s, args).Some?
    ensures Late(c, SetDone(c, s, args).value)
  {
    hide PutAll, HasData;
    var before := s.(t := SetTime(c, s, args));
    if s.open {
      LatePutAll(c, before, args);
    } else {
      assert forall a | a in args :: Settable(c, before, a);
      SetsNothing(c, before, args);
    }
  }

  lemma LateAsync(c: Params, s: Cursor, a: Assign)
    requires c.gap > 0 && Late(c, s) && AsyncDone(c, s, a).Some?
    ensures Late(c, AsyncDone(c, s, a).value)
  {
    hide Put, PutOk;
    var before := s.(t := AloneTime(c, s, c.sep));
    LatePut(c, before, a);
  }

  lemma LateGlbl(c: Params, s: Cursor, sig: Signal, level: bool)
    requires c.gap > 0 && Late(c, s)
    ensures Late(c, GlblDone(c, s, sig, level))
  {
    hide Emit;
    LateEmit(c, s.(t := AloneTime(c, s, c.sep)), Glbl(0, false, sig, level));
  }

  lemma LateEdge(c: Params, s: Cursor, port: string, rising: bool)
    requires c.gap > 0 && Late(c, s) && EdgeDone(c, s, port, rising).Some?
    ensures var r := EdgeDone(c, s, port, rising).value; Late(c, r) && r.open == s.open
  {
    hide Emit, ClockOf;
    LateEmit(c, s.(t := if s.open then s.t else Max(s.t, s.lastChange + c.gap)), Edge(0, false, ClockOf(c, port).value, rising));
  }

  lemma LateSample(c: Params, s: Cursor, name: Option<string>)
    requires c.gap > 0 && Late(c, s) && SampleDone(c, s, name).Some?
    ensures var r := SampleDone(c, s, name).value; Late(c, r) && r.open == s.open
  {
    hide Emit, LabelOf, IsLabel;
    LateEmit(c, s.(t := Max(s.t, s.lastChange + c.gap)), Sample(0, false, LabelOf(s, name)));
  }

  lemma LateMoved(c: Params, s: Cursor, t: int)
    requires Late(c, s) && !s.open
    ensures Late(c, s.(t := t))
  {}

  lemma LateHalf(c: Params, s: Cursor, port: string, rising: bool, sample: bool)
    requires c.gap > 0 && Late(c, s) && !s.open && HalfCycle(c, s, port, rising, sample).Some?
    ensures var r := HalfCycle(c, s, port, rising, sample).value; Late(c, r) && !r.open
  {
    hide Late, EdgeDone, SampleDone;
    LateEdge(c, s, port, rising);
    if sample { LateSample(c, EdgeDone(c, s, port, rising).value, None); }
  }

  lemma {:induction false} LateCycles(c: Params, s: Cursor, port: string, n: nat, sample: bool)
    requires c.gap > 0 && Late(c, s) && !s.open && Cycles(c, s, port, n, sample).Some?
    ensures Late(c, Cycles(c, s, port, n, sample).value)
    decreases n
  {
    hide Late, HalfCycle;
    if n > 0 {
      var start := Max(s.t, s.lastChange + c.gap);
      LateMoved(c, s, start);
      LateHalf(c, s.(t := start), port, true, sample);
      var high := HalfCycle(c, s.(t := start), port, true, sample).value;
      var later := high.(t := Max(high.t, start + c.period / 2));
      LateMoved(c, high, later.t);
      LateHalf(c, later, port, false, sample);
      var low := HalfCycle(c, later, port, false, sample).value;
      LateMoved(c, low, Max(low.t, start + c.period));
      LateCycles(c, low.(t := Max(low.t, start + c.period)), port, n - 1, sample);
    }
  }

  lemma LateAfter(c: Params, s: Cursor, call: Call)
    requires c.gap > 0 && !HasData(c.m) && Late(c, s) && BuilderState.After(c, s, call).Some?
    ensures Late(c, BuilderState.After(c, s, call).value)
  {
    hide Initialised, SetDone, AsyncDone, GlblDone, EdgeDone, SampleDone, Cycles, HasData;
    match call
    case CallInit(args) => LateInitialised(c, s, args);
    case CallSet(args) => LateSet(c, s, args);
    case CallAsync(a) => LateAsync(c, s, a);
    case CallGlbl(sig, level) => LateGlbl(c, s, sig, level);
    case CallEdge(port, rising) => LateEdge(c, s, port, rising);
    case CallSample(name) => LateSample(c, s, name);
    case CallCycle(port, n, sample) =>
      LateCycles(c, s, (if port.Some? then port else OnlyClock(c.m)).value, if n < 0 then 0 else n, sample);
    case CallWait(ps) =>
    case CallOpen =>
    case CallClose =>
  }

  lemma {:induction false} LateRun(c: Params, s: Cursor, calls: seq<Call>)
    requires c.gap > 0 && !HasData(c.m) && Late(c, s) && Run(c, s, calls).Some?
    ensures Late(c, Run(c, s, calls).value)
    decreases calls
  {
    hide Late, BuilderState.After, HasData;
    if calls != [] {
      LateAfter(c, s, calls[0]);
      LateRun(c, BuilderState.After(c, s, calls[0]).value, calls[1..]);
    }
  }

  lemma GapSuffices(c: Params, gap: int, calls: seq<Call>)
    requires Constructed(c, gap) && Succeeds(c, calls) && c.gap >= ROC_WIDTH + c.sep && !HasData(c.m)
    ensures ClearAfter(Finished(c, Run(c, Start(c), calls).value))
  {
    hide Run, HasData, WellFormed;
    LateRun(c, Start(c), calls);
  }

  // ---- a settle time that is not enough --------------------------------------------------------------

  /** The event that comes too early, and a sample. */
  ghost function TooEarly(c: Params): seq<Call> {
    if HasData(c.m) then (var p :| DataPort(c.m, p); [CallSet([Assign(p, Num(1))]), CallSample(None)]) else [CallSample(None)]
  }

  lemma FirstSample(c: Params, s: Cursor)
    requires !s.open && s.n == 0 && s.labels == {}
    ensures SampleDone(c, s, None).Some?
    ensures var r := SampleDone(c, s, None).value;
            !r.open && exists e :: r.events == s.events + [e] && e.Sample? && e.t == NewTime(s.events, Max(s.t, s.lastChange + c.gap), c.gap)
  {
    hide IsLabel, Decimal.Dec;
    AutoLabel(0);
  }

  lemma FirstSet(c: Params, p: string)
    requires DataPort(c.m, p) && c.settle > 0
    ensures SetDone(c, Start(c), [Assign(p, Num(1))]).Some?
    ensures var r := SetDone(c, Start(c), [Assign(p, Num(1))]).value;
            && !r.open && r.n == 0 && r.labels == {} && r.t == c.settle && r.lastChange == c.settle
            && |r.events| == 1 && r.events[0].Set? && r.events[0].t == c.settle
  {
    var s, a := Start(c), Assign(p, Num(1));
    var n := |InBits(c.m, p)|;
    assert Pow2(n) > 1 by { PowAbove(n); }
    assert Settable(c, s, a) && SetTime(c, s, [a]) == c.settle;
    hide InBits, BitsOf, Binary, ClsOf, Lo, Hi;
    assert !Holds(s, a) by { ZeroHeld(c.m, p); }
    assert PutOk(c, s, a) by { OneFits(n); }
    assert [a][1..] == [];
    assert PutAll(c, Put(c, s, a), [], true) == Some(Put(c, s, a));
  }

  lemma OneFits(n: nat)
    requires Pow2(n) > 1
    ensures BitsOf(Num(1), n).Some?
  {}

  lemma PowAbove(n: nat)
    requires n > 0
    ensures Pow2(n) > 1
  {}

  lemma ZeroHeld(m: DutMap, p: string)
    ensures p in Zeros(InPorts(m)) ==> Zeros(InPorts(m))[p] == Num(0)
  {}

  /** With any settle time that is not enough, some calls succeed whose stimulus has an error, although it
      is sampled. */
  lemma SettleTooShort(c: Params, gap: int)
    requires Constructed(c, gap) && !SettleEnough(c)
    ensures Succeeds(c, TooEarly(c))
    ensures var v := Finished(c, Run(c, Start(c), TooEarly(c)).value); Sampled(v) && !ClearAfter(v) && !ErrorFree(v, c.m)
  {
    var calls := TooEarly(c);
    var v := EarlyRun(c, gap);
    hide Guard, ErrorFree, Run, WellFormed;
    assert !Guard(v) by { EarlyGuard(v); }
    ValidByConstruction(c, gap, calls);
  }

  lemma EarlyGuard(v: Vec)
    requires !ClearAfter(v)
    ensures !Guard(v)
  {}

  lemma EarlyRun(c: Params, gap: int) returns (v: Vec)
    requires Constructed(c, gap) && !SettleEnough(c)
    ensures Succeeds(c, TooEarly(c)) && v == Finished(c, Run(c, Start(c), TooEarly(c)).value) && Sampled(v) && !ClearAfter(v)
  {
    var calls := TooEarly(c);
    hide WellFormed, SetDone, SampleDone;
    if HasData(c.m) {
      var p := calls[0].args[0].port;
      FirstSet(c, p);
      var s := SetDone(c, Start(c), calls[0].args).value;
      FirstSample(c, s);
      var r := SampleDone(c, s, None).value;
      TwoCalls(c, calls, s, r);
      v := Finished(c, r);
      assert v.events[0] == s.events[0] && v.events[0] in v.events;
      assert v.events[1] in v.events;
    } else {
      FirstSample(c, Start(c));
      var r := SampleDone(c, Start(c), None).value;
      assert calls[1..] == [];
      assert Run(c, r, []) == Some(r);
      v := Finished(c, r);
      assert v.events[0] in v.events;
    }
  }

  lemma TwoCalls(c: Params, calls: seq<Call>, s: Cursor, r: Cursor)
    requires |calls| == 2 && BuilderState.After(c, Start(c), calls[0]) == Some(s) && BuilderState.After(c, s, calls[1]) == Some(r)
    ensures Run(c, Start(c), calls) == Some(r)
  {
    hide BuilderState.After;
    assert calls[1..][0] == calls[1] && calls[1..][1..] == [];
    assert Run(c, r, []) == Some(r);
    assert Run(c, s, calls[1..]) == Some(r);
  }

  /** Exactly which parameters keep every stimulus clear of the release of GSR. */
  lemma SettleExact(c: Params, gap: int)
    requires Constructed(c, gap)
    ensures SettleEnough(c) <==> forall calls | Succeeds(c, calls) :: ClearAfter(Finished(c, Run(c, Start(c), calls).value))
  {
    hide Run, WellFormed, HasData, ClearAfter, Finished;
    if SettleEnough(c) {
      forall calls | Succeeds(c, calls)
        ensures ClearAfter(Finished(c, Run(c, Start(c), calls).value))
      {
        if c.settle >= ROC_WIDTH + c.sep { SettleClear(c, gap, calls); } else { GapSuffices(c, gap, calls); }
      }
    } else {
      SettleTooShort(c, gap);
    }
  }

  lemma SettleClear(c: Params, gap: int, calls: seq<Call>)
    requires Constructed(c, gap) && Succeeds(c, calls) && c.settle >= ROC_WIDTH + c.sep
    ensures ClearAfter(Finished(c, Run(c, Start(c), calls).value))
  {
    hide Run, WellFormed;
    SettleSuffices(c, gap, calls);
  }
}
