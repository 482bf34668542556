/** The stimulus builder (stimgen.py). Each method does what the call of its name does to the state
    of `BuilderState`; a result `ok` of false is an exception, and `Left` is the state it leaves. */
module Builder {
  import opened Wrap
  import opened Stimulus
  import opened Validation
  import opened BuilderFacts
  import opened BuilderState
  import Decimal

  class VecBuilder {
    const c: Params
    var t: int
    var events: seq<Event>
    var vals: map<string, Value>
    var level: map<int, bool>
    var setAt: int
    var setPorts: set<string>
    var lastChange: int
    var lastEdge: Option<int>
    var n: nat
    var labels: set<string>
    var open: bool
    var group: nat

    function State(): Cursor
      reads this
    {
      Cursor(t, events, vals, level, setAt, setPorts, lastChange, lastEdge, n, labels, open, group)
    }

    ghost predicate Valid()
      reads this
    {
      Inv(c, State())
    }

    constructor (c: Params, gap: int)
      requires Constructed(c, gap)
      ensures this.c == c && State() == Start(c) && Valid()
    {
      this.c, t, events := c, c.settle, [];
      vals, level := Zeros(InPorts(c.m)), IdleLevels(c.m.nclk);
      setAt, setPorts, lastChange, lastEdge := -1, {}, 0, None;
      n, labels, open, group := 0, {}, false, 0;
      new;
      StartInv(c, gap);
    }

    // ---- helpers ---------------------------------------------------------------------------------

    method NewTime()
      modifies this`t
      ensures t == BuilderFacts.NewTime(events, old(t), c.gap)
    {
      if events != [] && events[|events| - 1].t < t < events[|events| - 1].t + c.gap {
        t := events[|events| - 1].t + c.gap;
      }
    }

    method EmitEvent(op: Event)
      modifies this`t, this`events, this`group
      ensures State() == Emit(c, old(State()), op)
    {
      NewTime();
      events := events + [Stamp(op, t, open)];
      if open { group := group + 1; }
    }

    /** `_after`. */
    method Reach(time: int)
      modifies this`t
      ensures t == Max(old(t), time)
    {
      if time > t { t := time; }
    }

    method PutPort(a: Assign) returns (ok: bool)
      modifies this
      ensures ok <==> old(PutOk(c, State(), a))
      ensures ok ==> State() == Put(c, old(State()), a)
      ensures !ok ==> State() == PutLeft(c, old(State()), a)
    {
      hide Inv, InBits, BitsOf;
      var bits := InBits(c.m, a.port);
      if bits == [] { return false; }
      NewTime();
      if setAt != t { setAt, setPorts := t, {}; }
      if a.port in setPorts { return false; }
      setPorts := setPorts + {a.port};
      var s := BitsOf(a.value, |bits|);
      if s.None? { return false; }
      EmitEvent(Set(0, false, bits[0].bit, bits[|bits| - 1].bit, s.value));
      vals := vals[a.port := a.value];
      lastChange := t;
      ok := true;
    }

    /** The loop over the keyword arguments. */
    method PutEach(args: seq<Assign>, skip: bool) returns (ok: bool)
      modifies this
      ensures ok <==> PutAll(c, old(State()), args, skip).Some?
      ensures ok ==> State() == PutAll(c, old(State()), args, skip).value
      ensures !ok ==> State() == PutAllLeft(c, old(State()), args, skip)
    {
      hide PutOk, Put, Holds;
      ghost var s := State();
      for i := 0 to |args|
        invariant PutAll(c, State(), args[i..], skip) == PutAll(c, s, args, skip)
        invariant PutAll(c, s, args, skip).None? ==> PutAllLeft(c, State(), args[i..], skip) == PutAllLeft(c, s, args, skip)
      {
        PutAllStep(c, State(), args, i, skip);
        if !(skip && Holds(State(), args[i])) {
          var fine := PutPort(args[i]);
          if !fine { return false; }
        }
      }
      ok := true;
    }

    method AloneStart()
      modifies this`t
      ensures t == if open then old(t) else Max(old(t), lastChange + c.gap)
    {
      if !open { Reach(lastChange + c.gap); }
    }

    method AloneEnd()
      modifies this`t
      ensures t == if open then old(t) else old(t) + c.gap
    {
      if !open { t := t + c.gap; }
    }

    // ---- the calls -------------------------------------------------------------------------------

    /** The current value of an input port (0 until set), or None when there is no such port. */
    method CurrentValue(port: string) returns (v: Option<Value>)
      requires Valid()
      ensures v.Some? <==> InBits(c.m, port) != []
      ensures v.Some? ==> v.value == vals[port]
    {
      hide Stream, WellFormed, Tail;
      if port in vals { v := Some(vals[port]); } else { v := None; }
    }

    method Init(args: seq<Assign>) returns (ok: bool)
      requires Valid()
      modifies this
      ensures ok <==> Initialised(c, old(State()), args).Some?
      ensures ok ==> State() == Initialised(c, old(State()), args).value && Valid()
      ensures !ok ==> State() == Left(c, old(State()), CallInit(args))
    {
      hide Inv, PutAll;
      if exists e :: e in events && e.t > 0 { return false; }
      if open { return false; }
      var saved := t;
      t := 0;
      ok := PutEach(args, false);
      if !ok { return; }
      t, lastChange := saved, 0;
      InitialisedKeeps(c, old(State()), args);
    }

    method SetPorts(args: seq<Assign>) returns (ok: bool)
      requires Valid()
      modifies this
      ensures ok <==> SetDone(c, old(State()), args).Some?
      ensures ok ==> State() == SetDone(c, old(State()), args).value && Valid()
      ensures !ok ==> State() == Left(c, old(State()), CallSet(args))
    {
      hide Inv, PutAll;
      if exists a :: a in args && !Settable(c, State(), a) { return false; }
      if lastEdge.Some? && !open { Reach(lastEdge.value + c.gap); }
      if !open && setAt == t && exists a :: a in args && a.port in setPorts { t := t + c.gap; }
      ok := PutEach(args, true);
      if ok { SetKeeps(c, old(State()), args); }
    }

    method Async_(a: Assign) returns (ok: bool)
      requires Valid()
      modifies this
      ensures ok <==> AsyncDone(c, old(State()), a).Some?
      ensures ok ==> State() == AsyncDone(c, old(State()), a).value && Valid()
      ensures !ok ==> State() == Left(c, old(State()), CallAsync(a))
    {
      hide Inv, PutOk, Put;
      if !open && |InBits(c.m, a.port)| > 1 { return false; }
      if !open {
        AloneStart();
        if lastEdge.Some? { Reach(lastEdge.value + c.sep); }
      }
      ok := PutPort(a);
      if !ok { return; }
      PutOpen(c, old(State()).(t := AloneTime(c, old(State()), c.sep)), a);
      AloneEnd();
      if !open { Reach(lastChange + c.sep); }
      AsyncKeeps(c, old(State()), a);
    }

    method Glbl_(sig: Signal, lev: bool)
      requires Valid()
      modifies this
      ensures State() == GlblDone(c, old(State()), sig, lev) && Valid()
    {
      hide Inv;
      if !open {
        AloneStart();
        if lastEdge.Some? { Reach(lastEdge.value + c.sep); }
      }
      EmitEvent(Glbl(0, false, sig, lev));
      lastChange := t;
      AloneEnd();
      if !open { Reach(lastChange + c.sep); }
      GlblKeeps(c, old(State()), sig, lev);
    }

    method Edge_(port: string, rising: bool) returns (ok: bool)
      requires Valid()
      modifies this
      ensures ok <==> EdgeDone(c, old(State()), port, rising).Some?
      ensures ok ==> State() == EdgeDone(c, old(State()), port, rising).value && Valid()
      ensures !ok ==> State() == Left(c, old(State()), CallEdge(port, rising))
    {
      hide Inv;
      var clk := ClockOf(c, port);
      if clk.None? || clk.value !in level || level[clk.value] == rising { return false; }
      AloneStart();
      EmitEvent(Edge(0, false, clk.value, rising));
      level := level[clk.value := rising];
      lastEdge, lastChange := Some(t), t;
      AloneEnd();
      ok := true;
      EdgeKeeps(c, old(State()), port, rising);
    }

    /** Returns the label of the sample. */
    method SampleOutputs(name: Option<string>) returns (ok: bool, l: string)
      requires Valid()
      modifies this
      ensures ok <==> SampleDone(c, old(State()), name).Some?
      ensures ok ==> State() == SampleDone(c, old(State()), name).value && Valid() && l == LabelOf(old(State()), name)
      ensures !ok ==> State() == Left(c, old(State()), CallSample(name))
    {
      hide Inv;
      l := "";
      if open { return false, l; }
      if name.Some? {
        l := name.value;
      } else {
        l := "S" + Decimal.Dec(n);
        n := n + 1;
      }
      if !IsLabel(l) || l in labels { return false, l; }
      labels := labels + {l};
      Reach(lastChange + c.gap);
      EmitEvent(Sample(0, false, l));
      t := t + c.gap;
      ok := true;
      SampleKeeps(c, old(State()), name);
    }

    method Half(port: string, rising: bool, sample: bool) returns (ok: bool)
      requires Valid() && !open
      modifies this
      ensures ok <==> HalfCycle(c, old(State()), port, rising, sample).Some?
      ensures ok ==> State() == HalfCycle(c, old(State()), port, rising, sample).value && Valid() && !open
      ensures !ok ==> State() == HalfLeft(c, old(State()), port, rising)
    {
      hide Inv, EdgeDone, SampleDone;
      if HalfCycle(c, State(), port, rising, sample).Some? { HalfKeeps(c, State(), port, rising, sample); }
      ok := Edge_(port, rising);
      if ok && sample {
        var l;
        ok, l := SampleOutputs(None);
      }
    }

    /** The body of the loop of `cycle`. */
    method Once(port: string, sample: bool) returns (ok: bool)
      requires Valid() && !open
      modifies this
      ensures ok <==> OneCycle(c, old(State()), port, sample).Some?
      ensures ok ==> State() == OneCycle(c, old(State()), port, sample).value && Valid() && !open
      ensures !ok ==> State() == OneLeft(c, old(State()), port, sample)
    {
      hide Inv, HalfCycle;
      LaterInv(c, State(), Max(t, lastChange + c.gap));
      Reach(lastChange + c.gap);
      var start := t;
      ok := Half(port, true, sample);
      if !ok { return; }
      LaterInv(c, State(), Max(t, start + c.period / 2));
      Reach(start + c.period / 2);
      ok := Half(port, false, sample);
      if !ok { return; }
      LaterInv(c, State(), Max(t, start + c.period));
      Reach(start + c.period);
    }

    method Cycle(clock: Option<string>, k: int, sample: bool) returns (ok: bool)
      requires Valid()
      modifies this
      ensures ok <==> CycleDone(c, old(State()), clock, k, sample).Some?
      ensures ok ==> State() == CycleDone(c, old(State()), clock, k, sample).value && Valid()
      ensures !ok ==> State() == Left(c, old(State()), CallCycle(clock, k, sample))
    {
      hide Inv, OneCycle, OnlyClock;
      if open { return false; }
      var p := if clock.Some? then clock else OnlyClock(c.m);
      if p.None? { return false; }
      ghost var s := State();
      var i := 0;
      var count := if k < 0 then 0 else k;
      while i < count
        invariant 0 <= i <= count && Valid() && !open
        invariant Cycles(c, State(), p.value, count - i, sample) == Cycles(c, s, p.value, count, sample)
        invariant Cycles(c, s, p.value, count, sample).None? ==>
                    CyclesLeft(c, State(), p.value, count - i, sample) == CyclesLeft(c, s, p.value, count, sample)
      {
        var fine := Once(p.value, sample);
        if !fine { return false; }
        i := i + 1;
      }
      ok := true;
    }

    method Wait(ps: int) returns (ok: bool)
      requires Valid()
      modifies this`t
      ensures ok <==> WaitDone(old(State()), ps).Some?
      ensures ok ==> State() == WaitDone(old(State()), ps).value && Valid()
      ensures !ok ==> State() == Left(c, old(State()), CallWait(ps))
    {
      hide Inv;
      if open || ps < 0 { return false; }
      LaterInv(c, State(), t + ps);
      t := t + ps;
      ok := true;
    }

    /** Entering `simultaneous()`. */
    method Open() returns (ok: bool)
      requires Valid()
      modifies this
      ensures ok <==> Opened(c, old(State())).Some?
      ensures ok ==> State() == Opened(c, old(State())).value && Valid()
      ensures !ok ==> State() == Left(c, old(State()), CallOpen)
    {
      hide Inv;
      if open { return false; }
      Reach(lastChange + c.gap);
      if lastEdge.Some? { Reach(lastEdge.value + c.gap); }
      open, group := true, 0;
      ok := true;
      OpenedKeeps(c, old(State()));
    }

    /** Leaving it. */
    method Close() returns (ok: bool)
      requires Valid() && open
      modifies this
      ensures ok <==> Closed(c, old(State())).Some?
      ensures ok ==> State() == Closed(c, old(State())).value && Valid()
      ensures !ok ==> State() == Left(c, old(State()), CallClose)
    {
      hide Inv;
      var few := group < 2;
      open, group := false, 0;
      if few { return false; }
      t := t + c.gap;
      ok := true;
      ClosedKeeps(c, old(State()));
    }

    /** The finished stimulus: no error exactly when it meets the guard, and renderable on hardware
        exactly when nothing simulation-only was used. */
    method Build() returns (v: Option<Vec>)
      requires Valid()
      modifies this`t
      ensures v.Some? <==> !old(open)
      ensures v.Some? ==> v.value == Finished(c, old(State()))
      ensures v.Some? ==> (ErrorFree(v.value, c.m) <==> Guard(v.value))
      ensures v.Some? ==> (Renderable(v.value, c.m) <==>
                           NoPads(c.m) && forall e | e in events :: !e.sim && !e.Glbl? && !HasX(e))
      ensures Valid()
    {
      hide Inv, ErrorFree, Guard, Renderable, NoPads, HasX, Built, SetupOk, Numbered;
      if open { return None; }
      ghost var s := State();
      InvGap(c, s);
      FinishedBuilt(c, s);
      BuiltErrorFree(U(c), Finished(c, s), s.events, c.period, c.sep, EndTime(c, s));
      BuiltRenderable(U(c), Finished(c, s), s.events, c.period, c.sep, EndTime(c, s));
      LaterInv(c, s, EndTime(c, s));
      Reach(lastChange + c.gap);
      NewTime();
      var header := Header(c.m.prim, c.m.cfg, c.m.nin, c.m.nout, c.m.nclk, c.settle, c.seed, Some(c.sep), c.reject,
                           if c.illegal == [] then None else Some(c.illegal), c.m.attrs);
      v := Some(Vec(header, StepClocks(c.m, c.period, c.m.nclk), events + [End(t, false)]));
    }
  }

  lemma PutAllStep(c: Params, s: Cursor, args: seq<Assign>, i: nat, skip: bool)
    requires i < |args|
    ensures PutAll(c, s, args[i..], skip) ==
            if skip && Holds(s, args[i]) then PutAll(c, s, args[i + 1..], skip)
            else if PutOk(c, s, args[i]) then PutAll(c, Put(c, s, args[i]), args[i + 1..], skip)
            else None
    ensures PutAll(c, s, args[i..], skip).None? ==>
              PutAllLeft(c, s, args[i..], skip) ==
              if skip && Holds(s, args[i]) then PutAllLeft(c, s, args[i + 1..], skip)
              else if PutOk(c, s, args[i]) then PutAllLeft(c, Put(c, s, args[i]), args[i + 1..], skip)
              else PutLeft(c, s, args[i])
  {
    assert args[i..][1..] == args[i + 1..] && args[i..][0] == args[i];
  }

  lemma PutOpen(c: Params, s: Cursor, a: Assign)
    requires PutOk(c, s, a)
    ensures Put(c, s, a).open == s.open
  {}
}
