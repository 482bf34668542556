/** The equivalence stimulus (`_Stim` and `equiv_stimulus` of verilatorize/equiv.py): for which models and
    triggers it can be built, and that what is built has no error. */
module EquivStim {
  import opened Wrap
  import opened Stimulus
  import opened Validation
  import opened BuilderFacts
  import opened BuilderState
  import opened BuilderProgress
  import opened EquivFacts
  import Builder
  import Decimal
  import Validator

  // ---- the generator ---------------------------------------------------------------------------------

  class Stim {
    const g: Plan
    const b: Builder.VecBuilder
    /** The draws of the random generator. */
    const rand: nat -> nat
    var drawn: nat
    var on: set<string>
    var held: set<string>
    var tag: string
    var n: nat
    ghost var high: set<string>
    ghost var loose: set<string>
    ghost var sampled: bool

    ghost predicate Wired() { PlanOk(g) && b.c == g.c }

    ghost predicate Holding()
      reads this, b
    {
      Wired() && IsLabel(tag) && Facts(g, b.State(), on, high, loose, n) && (sampled ==> n > 0)
    }

    /** Between the steps: outside a block, with exactly the clocks high that are held. */
    ghost predicate Ready()
      reads this, b
    {
      Holding() && !b.open && loose == {} && Matches(g.clocks, held, high) && Matches(g.clocks, held, on)
    }

    /** All triggers off and all clocks low. */
    ghost predicate Idle()
      reads this, b
    {
      Ready() && on == {}
    }

    constructor (c: Params, gap: int, ts: seq<Trig>, rand: nat -> nat)
      requires Constructed(c, gap) && Named(c.m) && forall t | t in ts :: Resolve(c.m, t.name) == Some(t)
      ensures Idle() && n == 0 && g == PlanFor(c, ts) && fresh(b) && b.State() == Start(c)
    {
      g, this.rand, drawn, on, held, tag, n := PlanFor(c, ts), rand, 0, {}, {}, "base", 0;
      b := new Builder.VecBuilder(c, gap);
      high, loose, sampled := {}, {}, false;
      new;
      StartFacts(c, ts);
    }

    method Sample(what: string)
      requires Holding() && !b.open && IsLabel(what)
      modifies this`n, b
      ensures Holding() && !b.open && n == old(n) + 1
    {
      hide PlanOk, IsLabel, Decimal.Dec, Facts, Inv, SampleDone;
      SampledFacts(g, b.State(), on, high, loose, n, tag, what);
      var ok, _ := b.SampleOutputs(Some(tag + "." + what + "." + Decimal.Dec(n)));
      n := n + 1;
    }

    /** An edge of a clock that is at the other level; an error for a clock port that is no single bit. */
    method Edge(p: string, up: bool) returns (ok: bool)
      requires Holding() && p in g.clocks && (p in high) != up
      modifies this`high, b
      ensures ok <==> ClockOf(g.c, p).Some?
      ensures ok ==> Holding() && high == Toggled(old(high), p, up) && b.open == old(b.open)
      ensures ok && b.open ==> b.group == old(b.group) + 1 && Taken(g.c, b.State()) <= Taken(g.c, old(b.State()))
    {
      hide PlanOk, IsLabel, ClockOf, Taken, Facts, Inv, EdgeDone;
      EdgeFacts(g, b.State(), on, high, loose, n, p, up);
      ok := b.Edge_(p, up);
      high := Toggled(high, p, up);
    }

    /** `drive`, outside a block or in one where the trigger has not changed yet; false is an error. */
    method Drive(t: Trig, up: bool) returns (ok: bool)
      requires Holding() && t in g.trigs && loose == {} && (t.kind == OnClock ==> ClockOf(g.c, t.name).Some?)
      requires Matches(g.clocks, held, on) && (t.kind == OnClock ==> (t.name in held <==> t.name in high))
      requires b.open && (t.name in on) != up ==> t.name !in Taken(g.c, b.State())
      modifies this`on, this`held, this`high, b
      ensures ok <==> (t.name in old(on)) != up
      ensures ok ==> Matches(g.clocks, held, on)
      ensures ok && Matches(g.clocks, old(held), old(high)) ==> Matches(g.clocks, held, high)
      ensures ok ==> Holding() && on == Toggled(old(on), t.name, up) && b.open == old(b.open)
      ensures ok ==> high == if t.kind == OnClock then Toggled(old(high), t.name, up) else old(high)
      ensures ok ==> held == if t.kind == OnClock then Toggled(old(held), t.name, up) else old(held)
      ensures ok && b.open ==> b.group == old(b.group) + 1 && Taken(g.c, b.State()) <= Taken(g.c, old(b.State())) + {t.name}
    {
      hide PlanOk, IsLabel, ClockOf, Taken, Facts, Inv, GlblDone, AsyncDone, SetDone, Matches;
      if t.kind == OnClock { TrigIs(g, t); MatchIn(g.clocks, held, on, t.name); }
      if (t.name in on) == up { return false; }
      ghost var s := b.State();
      TrigIs(g, t);
      match t.kind {
        case OnGlbl =>
          DrivenGlbl(g, s, on, high, n, t, up);
          b.Glbl_(t.sig, up);
        case OnClock =>
          var fine := Edge(t.name, up);
          held := Toggled(held, t.name, up);
          FactsOn(g, b.State(), on, high, loose, n, t, up);
        case OnAsync =>
          DrivenAsync(g, s, on, high, n, t, up);
          var fine := b.Async_(Assign(t.name, Num(if up then 1 else 0)));
        case OnData =>
          DrivenData(g, s, on, high, n, t, up);
          var fine := b.SetPorts([Assign(t.name, Num(if up then t.ones else 0))]);
      }
      if Matches(g.clocks, old(held), old(high)) { MatchToggled(g.clocks, old(held), old(high), t.name, up); }
      MatchToggled(g.clocks, old(held), on, t.name, up);
      MatchOther(g.clocks, old(held), on, t.name, up);
      on := Toggled(on, t.name, up);
      ok := true;
    }

    /** A value for every data port that is no trigger. */
    method Draw() returns (args: seq<Assign>)
      requires Wired()
      modifies this`drawn
      ensures Draws(g, args)
    {
      DataDistinct(g);
      hide PlanOk, InBits, Draws, DistinctNames;
      args := [];
      DrawsNone(g);
      for i := 0 to |g.data|
        invariant DrawsFor(g, args, i)
      {
        var range := Pow2(|InBits(g.c.m, g.data[i])|);
        PowAtLeast(|InBits(g.c.m, g.data[i])|);
        DrawsMore(g, args, i, rand(drawn) % range);
        args := args + [Assign(g.data[i], Num(rand(drawn) % range))];
        drawn := drawn + 1;
      }
    }

    method Randomize()
      requires Holding() && !b.open
      modifies this`drawn, b
      ensures Holding() && !b.open
    {
      hide PlanOk, IsLabel, Facts, Inv, SetDone, Draws;
      var args := Draw();
      if args != [] {
        DrawnFacts(g, b.State(), on, high, loose, n, args);
        var fine := b.SetPorts(args);
      }
    }

    /** Waits until `time`, if that is still to come. */
    method Until(time: int)
      requires Holding() && !b.open
      modifies b
      ensures Holding() && !b.open
    {
      hide PlanOk, IsLabel, Facts, Inv;
      WaitFacts(g, b.State(), on, high, loose, n, Max(0, time - b.t));
      var fine := b.Wait(Max(0, time - b.t));
    }

    /** One cycle of a clock that is low, a sample after each edge. */
    method Cycle(p: string) returns (ok: bool)
      requires Holding() && !b.open && p in g.clocks && p !in high
      modifies this`n, this`high, b
      ensures ok <==> ClockOf(g.c, p).Some?
      ensures ok ==> Holding() && !b.open && high == old(high) && n == old(n) + 2
    {
      hide PlanOk, Facts, ClockOf, Taken;
      ClockName(g, p);
      LabelJoin(p, "r");
      LabelJoin(p, "f");
      hide IsLabel;
      var start := b.t;
      ok := Edge(p, true);
      if !ok { return; }
      Sample(p + "r");
      Until(start + b.c.period / 2);
      ok := Edge(p, false);
      Sample(p + "f");
      Until(start + b.c.period);
      assert high == old(high);
    }

    /** `activity`: `k` cycles of every free clock. */
    method Activity(k: nat) returns (ok: bool)
      requires Holding() && !b.open && Matches(g.clocks, held, high)
      modifies this`n, this`drawn, this`high, b
      ensures ok <==> k == 0 || forall p | p in g.clocks && p !in held :: ClockOf(g.c, p).Some?
      ensures ok ==> Holding() && !b.open && high == old(high) && n >= old(n) + k
    {
      hide PlanOk, Facts, ClockOf;
      var free := Free(g.clocks, held);
      FreeAre(g.clocks, held);
      Words();
      hide IsLabel;
      for i := 0 to k
        invariant Holding() && !b.open && high == old(high) && n >= old(n) + i
        invariant i == 0 || forall p | p in free :: ClockOf(g.c, p).Some?
      {
        if free == [] {
          Randomize();
          Sample("a");
        }
        for j := 0 to |free|
          invariant Holding() && !b.open && high == old(high) && n >= old(n) + i + (if free == [] || j > 0 then 1 else 0)
          invariant forall q :: 0 <= q < j ==> ClockOf(g.c, free[q]).Some?
        {
          assert free[j] in free;
          Randomize();
          ok := Cycle(free[j]);
          if !ok { return; }
        }
      }
      ok := true;
    }

    /** `activity` cannot fail once every clock port is a single bit. */
    method Go(k: nat)
      requires Holding() && !b.open && Matches(g.clocks, held, high) && Narrow(g)
      modifies this`n, this`drawn, this`high, b
      ensures Holding() && !b.open && high == old(high) && n >= old(n) + k
    {
      hide PlanOk, Facts, ClockOf, IsLabel, Matches;
      var fine := Activity(k);
    }

    /** `activity` between the steps. */
    method Run(k: nat)
      requires Ready() && Narrow(g)
      modifies this`n, this`drawn, this`high, b
      ensures Ready() && n >= old(n) + k
    {
      hide PlanOk, Facts, ClockOf, IsLabel, Matches, Narrow;
      Go(k);
    }

    /** `drive` and a sample. */
    method Turn(t: Trig, up: bool, what: string) returns (ok: bool)
      requires Ready() && Narrow(g) && t in g.trigs && IsLabel(what)
      modifies this`on, this`held, this`high, this`n, b
      ensures ok <==> (t.name in old(on)) != up
      ensures ok ==> Ready() && on == Toggled(old(on), t.name, up)
    {
      hide PlanOk, Facts, ClockOf, IsLabel, InBits, Matches, Taken, Toggled;
      DriveReady(t);
      ok := Drive(t, up);
      if ok { Sample(what); }
    }

    /** A trigger may be driven between the steps. */
    lemma DriveReady(t: Trig)
      requires Ready() && Narrow(g) && t in g.trigs
      ensures t.kind == OnClock ==> ClockOf(g.c, t.name).Some? && (t.name in held <==> t.name in high)
    {
      TrigIs(g, t);
    }

    /** One of the `_steps`. */
    method Step(t: Trig, up: bool) returns (ok: bool)
      requires Ready() && Narrow(g) && t in g.trigs
      modifies this`on, this`held, this`high, this`n, this`drawn, b
      ensures ok <==> (t.name in old(on)) != up
      ensures ok ==> Ready() && on == Toggled(old(on), t.name, up)
    {
      TrigIs(g, t);
      LabelJoin(t.name, if up then "u" else "d");
      hide PlanOk, Facts, ClockOf, IsLabel, InBits, Matches, Toggled;
      ok := Turn(t, up, t.name + if up then "u" else "d");
      if ok { Run(1); }
    }

    /** `_independent`, one round of one trigger. */
    method Pulse(t: Trig)
      requires Idle() && Narrow(g) && t in g.trigs
      modifies this`on, this`held, this`high, this`n, this`drawn, b
      ensures Idle()
    {
      Words();
      hide PlanOk, Facts, ClockOf, IsLabel, Matches, Narrow, Toggled;
      RiseFall(on, t.name);
      Run(2);
      var ok := Turn(t, true, "on");
      Run(2);
      ok := Turn(t, false, "off");
      Run(1);
    }

    /** `_independent`. */
    method Independent()
      requires Idle() && Narrow(g)
      modifies this`on, this`held, this`high, this`n, this`drawn, this`tag, b
      ensures Idle()
    {
      hide PlanOk, Facts, ClockOf, IsLabel, Decimal.Dec, Matches, IndTag;
      for i := 0 to |g.trigs|
        invariant Idle()
      {
        for k := 0 to 3
          invariant Idle()
        {
          IndTagOk(g, g.trigs[i], k);
          tag := IndTag(g.trigs[i], k);
          Pulse(g.trigs[i]);
        }
      }
    }

    /** Entering and leaving `together`. */
    method Begin()
      requires Ready()
      modifies b
      ensures Holding() && b.open && b.group == 0 && Taken(g.c, b.State()) == {}
    {
      hide PlanOk, Facts, IsLabel, Inv, Opened, Matches, Taken;
      OpenFacts(g, b.State(), on, high, loose, n);
      var ok := b.Open();
    }

    method End()
      requires Holding() && b.open && b.group >= 2
      modifies b
      ensures Holding() && !b.open
    {
      hide PlanOk, Facts, IsLabel, Inv, Closed;
      CloseFacts(g, b.State(), on, high, loose, n);
      var ok := b.Close();
    }

    /** A trigger together with a rising edge, then the falling edge. */
    method Beside(t: Trig, p: string, up: bool, what: string, after: string)
      requires Ready() && Narrow(g) && t in g.trigs && t.kind != OnClock && p in g.clocks && p !in on && (t.name in on) != up
      requires IsLabel(what) && IsLabel(after)
      modifies this`on, this`held, this`high, this`n, b
      ensures Ready() && on == Toggled(old(on), t.name, up)
    {
      hide PlanOk, Facts, ClockOf, IsLabel, Taken, InBits, Matches, Toggled;
      MatchIn(g.clocks, held, high, p);
      MatchIn(g.clocks, held, on, p);
      RiseFall(high, p);
      Rise(t, p, up);
      Sample(what);
      var ok := Edge(p, false);
      Sample(after);
    }

    /** The block of `_coincident`. */
    method Rise(t: Trig, p: string, up: bool)
      requires Ready() && Narrow(g) && t in g.trigs && t.kind != OnClock && p in g.clocks && p !in high && (t.name in on) != up
      modifies this`on, this`held, this`high, b
      ensures Holding() && !b.open && loose == {} && on == Toggled(old(on), t.name, up) && held == old(held) && high == Toggled(old(high), p, true)
      ensures Matches(g.clocks, held, on)
    {
      hide PlanOk, Facts, ClockOf, IsLabel, Taken, Matches, Toggled;
      Begin();
      var ok := Edge(p, true);
      ok := Drive(t, up);
      End();
    }

    /** `_coincident`, one trigger with one clock. */
    method CoincidentWith(t: Trig, p: string)
      requires Idle() && Narrow(g) && t in g.trigs && t.kind != OnClock && p in g.clocks
      modifies this`on, this`held, this`high, this`n, this`drawn, this`tag, b
      ensures Idle()
    {
      CoinTagOk(g, t, p);
      hide PlanOk, Facts, ClockOf, IsLabel, Matches, CoinTag;
      tag := CoinTag(t, p);
      CoinUp(t, p);
      CoinDown(t, p);
    }

    method CoinUp(t: Trig, p: string)
      requires Idle() && Narrow(g) && t in g.trigs && t.kind != OnClock && p in g.clocks
      modifies this`on, this`held, this`high, this`n, this`drawn, b
      ensures Ready() && on == {t.name}
    {
      Words();
      hide PlanOk, Facts, ClockOf, IsLabel, Matches, Narrow, Toggled;
      ToggledOnly(t.name);
      Beside(t, p, true, "on", "fall");
      Run(1);
    }

    method CoinDown(t: Trig, p: string)
      requires Ready() && on == {t.name} && Narrow(g) && t in g.trigs && t.kind != OnClock && p in g.clocks
      modifies this`on, this`held, this`high, this`n, b
      ensures Idle()
    {
      Words();
      NotOn(g, t, p);
      hide PlanOk, Facts, ClockOf, IsLabel, Matches, Narrow, Toggled;
      ToggledOnly(t.name);
      Beside(t, p, false, "off", "idle");
    }

    /** `_coincident`. */
    method Coincident()
      requires Idle() && Narrow(g)
      modifies this`on, this`held, this`high, this`n, this`drawn, this`tag, b
      ensures Idle()
    {
      hide PlanOk, Facts, ClockOf, IsLabel, Matches;
      for i := 0 to |g.trigs|
        invariant Idle()
      {
        if g.trigs[i].kind != OnClock {
          for k := 0 to |g.clocks|
            invariant Idle()
          {
            CoincidentWith(g.trigs[i], g.clocks[k]);
          }
        }
      }
    }

    /** Both triggers in one block. */
    method Both(t: Trig, u: Trig, up: bool) returns (ok: bool)
      requires Ready() && Narrow(g) && t in g.trigs && u in g.trigs && (t.name in on) != up && (u.name in on) != up
      modifies this`on, this`held, this`high, b
      ensures ok <==> t.name != u.name
      ensures ok ==> Ready() && on == Toggled(Toggled(old(on), t.name, up), u.name, up)
    {
      DriveReady(t);
      hide PlanOk, Facts, ClockOf, IsLabel, Taken, InBits, Matches, Toggled, Narrow;
      Begin();
      ok := Drive(t, up);
      OtherToggled(old(on), t.name, u.name, up);
      RiseFall(old(on), t.name);
      ok := Second(u, up);
    }

    /** The second trigger of the block. */
    method Second(u: Trig, up: bool) returns (ok: bool)
      requires Holding() && b.open && b.group == 1 && loose == {} && Matches(g.clocks, held, high) && Matches(g.clocks, held, on)
      requires Narrow(g) && u in g.trigs && ((u.name in on) != up ==> u.name !in Taken(g.c, b.State()))
      modifies this`on, this`held, this`high, b
      ensures ok <==> (u.name in old(on)) != up
      ensures ok ==> Ready() && on == Toggled(old(on), u.name, up)
    {
      SecondReady(u);
      hide PlanOk, Facts, ClockOf, IsLabel, Taken, InBits, Matches, Toggled, Narrow;
      ok := Drive(u, up);
      if ok { End(); }
    }

    lemma SecondReady(t: Trig)
      requires Wired() && Matches(g.clocks, held, high) && Narrow(g) && t in g.trigs
      ensures t.kind == OnClock ==> ClockOf(g.c, t.name).Some? && (t.name in held <==> t.name in high)
    {
      TrigIs(g, t);
    }

    /** Four of the `_steps` of a pair: overlapping, or nested. */
    method FourSteps(t: Trig, u: Trig, nested: bool) returns (ok: bool)
      requires Idle() && Narrow(g) && t in g.trigs && u in g.trigs
      modifies this`on, this`held, this`high, this`n, this`drawn, b
      ensures ok <==> t.name != u.name
      ensures ok ==> Idle()
    {
      hide PlanOk, Facts, ClockOf, IsLabel, Matches;
      ok := Step(t, true);
      ok := Step(u, true);
      if !ok { return; }
      ok := Step(if nested then u else t, false);
      ok := Step(if nested then t else u, false);
    }

    /** `_pairs`, one pair. */
    method Pair(t: Trig, u: Trig) returns (ok: bool)
      requires Idle() && Narrow(g) && t in g.trigs && u in g.trigs
      modifies this`on, this`held, this`high, this`n, this`drawn, this`tag, b
      ensures ok <==> t.name != u.name
      ensures ok ==> Idle()
    {
      PairTags(g, t, u);
      hide PlanOk, Facts, ClockOf, IsLabel, Matches, PairTag, Narrow;
      tag := PairTag(t, u, "overlap");
      ok := FourSteps(t, u, false);
      if !ok { return; }
      tag := PairTag(t, u, "nested");
      ok := FourSteps(t, u, true);
      tag := PairTag(t, u, "coincident");
      BothTurn(t, u, true);
      BothTurn(t, u, false);
    }

    /** Both together, a sample and some activity. */
    method BothTurn(t: Trig, u: Trig, up: bool)
      requires Ready() && Narrow(g) && t in g.trigs && u in g.trigs && (t.name in on) != up && (u.name in on) != up && t.name != u.name
      modifies this`on, this`held, this`high, this`n, this`drawn, b
      ensures Ready() && on == Toggled(Toggled(old(on), t.name, up), u.name, up)
    {
      Words();
      hide PlanOk, Facts, ClockOf, IsLabel, Matches, Narrow, Toggled;
      var ok := Both(t, u, up);
      Sample(if up then "u" else "d");
      Run(1);
    }

    /** `_pairs`: an error exactly when two triggers are the same. */
    method Pairs() returns (ok: bool)
      requires Idle() && Narrow(g)
      modifies this`on, this`held, this`high, this`n, this`drawn, this`tag, b
      ensures ok <==> forall i, j :: 0 <= i < j < |g.trigs| ==> g.trigs[i].name != g.trigs[j].name
      ensures ok ==> Idle()
    {
      hide PlanOk, Facts, ClockOf, IsLabel, Matches;
      for i := 0 to |g.trigs|
        invariant Idle()
        invariant forall a, c :: 0 <= a < i && a < c < |g.trigs| ==> g.trigs[a].name != g.trigs[c].name
      {
        for j := i + 1 to |g.trigs|
          invariant Idle()
          invariant forall c :: i < c < j ==> g.trigs[i].name != g.trigs[c].name
        {
          ok := Pair(g.trigs[i], g.trigs[j]);
          if !ok { return; }
        }
      }
      ok := true;
    }

    /** A value of a data trigger that is being walked. */
    method Put(t: Trig, v: int)
      requires Holding() && !b.open && t in g.trigs && t.kind == OnData && t.name in loose && 0 <= v <= t.ones
      modifies b
      ensures Holding() && !b.open && t.name in b.vals && b.vals[t.name] == Num(v)
    {
      hide PlanOk, Facts, Inv, SetDone, IsLabel;
      PutFacts(g, b.State(), on, high, loose, n, t, v);
      var ok := b.SetPorts([Assign(t.name, Num(v))]);
    }

    method Loosen(t: Trig)
      requires Idle()
      modifies this`loose
      ensures Holding() && !b.open && loose == {t.name} && Matches(g.clocks, held, high) && Matches(g.clocks, held, on)
    {
      hide PlanOk, Facts, IsLabel, Matches;
      FactsLooser(g, b.State(), on, high, n, {t.name});
      loose := {t.name};
    }

    method Tighten(t: Trig)
      requires Holding() && !b.open && loose == {t.name} && Matches(g.clocks, held, high) && Matches(g.clocks, held, on) && on == {}
      requires t in g.trigs && t.name in b.vals && b.vals[t.name] == Num(0)
      modifies this`loose
      ensures Idle()
    {
      hide PlanOk, Facts, IsLabel, Matches;
      FactsLoose(g, b.State(), on, high, n, t);
      loose := {};
    }

    /** A value, a sample and some activity. */
    method Shown(t: Trig, v: int)
      requires Holding() && !b.open && Matches(g.clocks, held, high) && Narrow(g)
      requires t in g.trigs && t.kind == OnData && t.name in loose && 0 <= v <= t.ones
      modifies this`n, this`drawn, this`high, b
      ensures Holding() && !b.open && high == old(high)
    {
      Words();
      hide PlanOk, Facts, ClockOf, IsLabel, Matches, Narrow;
      Put(t, v);
      Sample("on");
      Go(1);
    }

    method Settle()
      requires Idle() && Narrow(g)
      modifies this`n, this`drawn, this`high, b
      ensures Idle()
    {
      Words();
      hide PlanOk, Facts, ClockOf, IsLabel, Matches, Narrow;
      Sample("off");
      Run(1);
    }

    /** One value of a data trigger that is off, and back. */
    method WalkTo(t: Trig, v: int)
      requires Idle() && Narrow(g) && t in g.trigs && t.kind == OnData && 0 <= v <= t.ones
      modifies this`n, this`drawn, this`high, this`loose, b
      ensures Idle()
    {
      assert on == {};
      hide *;
      Loosen(t);
      Shown(t, v);
      Put(t, 0);
      Tighten(t);
      Settle();
    }

    /** `_walk`. */
    method Walk()
      requires Idle() && Narrow(g)
      modifies this`n, this`drawn, this`high, this`loose, this`tag, b
      ensures Idle()
    {
      hide PlanOk, Facts, ClockOf, IsLabel, Matches, Decimal.Dec, Pow2, InBits, WalkTag;
      for i := 0 to |g.trigs|
        invariant Idle()
      {
        var t := g.trigs[i];
        TrigIs(g, t);
        if t.kind == OnData && t.ones != 1 {
          for k := 0 to |InBits(g.c.m, t.name)|
            invariant Idle()
          {
            PowBelow(k, |InBits(g.c.m, t.name)|);
            WalkTags(t, k);
            tag := WalkTag(t, "one", k);
            WalkTo(t, Pow2(k));
            tag := WalkTag(t, "zero", k);
            WalkTo(t, t.ones - Pow2(k));
          }
        }
      }
    }

    /** `pulse_async`: an error for a port of several bits. */
    method PulseAsync(q: string, up: bool) returns (ok: bool)
      requires Holding() && !b.open && q in g.asyncs
      modifies b
      ensures ok <==> OneBit(g, q)
      ensures ok ==> Holding() && !b.open
    {
      hide PlanOk, Facts, Inv, AsyncDone, IsLabel, InBits;
      if !OneBit(g, q) { return false; }
      PulseFacts(g, b.State(), on, high, loose, n, q, up);
      ok := b.Async_(Assign(q, Num(if up then 1 else 0)));
    }

    /** `_with_async`, one trigger and one port. */
    method AsyncRound(t: Trig, q: string) returns (ok: bool)
      requires Idle() && Narrow(g) && t in g.trigs && q in g.asyncs
      modifies this`on, this`held, this`high, this`n, this`drawn, this`tag, b
      ensures ok <==> OneBit(g, q)
      ensures ok ==> Idle()
    {
      AsyncTagOk(g, t, q);
      LabelJoin(q, "u");
      LabelJoin(q, "d");
      hide PlanOk, Facts, ClockOf, IsLabel, Matches, OneBit, Narrow, AsyncTag;
      tag := AsyncTag(t, q);
      ok := PulseTurn(q, true, q + "u");
      if !ok { return; }
      AsyncRest(t, q);
    }

    /** The rest of the round. */
    method AsyncRest(t: Trig, q: string)
      requires Idle() && Narrow(g) && t in g.trigs && q in g.asyncs && OneBit(g, q) && IsLabel(q + "d")
      modifies this`on, this`held, this`high, this`n, this`drawn, b
      ensures Idle()
    {
      Words();
      hide PlanOk, Facts, ClockOf, IsLabel, Matches, OneBit, Narrow, Toggled;
      RiseFall(on, t.name);
      var ok := Turn(t, true, "u");
      ok := PulseTurn(q, false, q + "d");
      ok := Turn(t, false, "d");
      Run(1);
    }

    /** `pulse_async` and a sample. */
    method PulseTurn(q: string, up: bool, what: string) returns (ok: bool)
      requires Ready() && q in g.asyncs && IsLabel(what)
      modifies this`n, b
      ensures ok <==> OneBit(g, q)
      ensures ok ==> Ready()
    {
      hide PlanOk, Facts, IsLabel, Matches, OneBit;
      ok := PulseAsync(q, up);
      if ok { Sample(what); }
    }

    /** `_with_async`. */
    method WithAsync() returns (ok: bool)
      requires Idle() && Narrow(g)
      modifies this`on, this`held, this`high, this`n, this`drawn, this`tag, b
      ensures ok <==> g.trigs == [] || forall q | q in g.asyncs :: OneBit(g, q)
      ensures ok ==> Idle()
    {
      hide PlanOk, Facts, ClockOf, IsLabel, Matches, OneBit;
      for i := 0 to |g.trigs|
        invariant Idle()
        invariant i == 0 || forall q | q in g.asyncs :: OneBit(g, q)
      {
        for k := 0 to |g.asyncs|
          invariant Idle()
          invariant forall j :: 0 <= j < k ==> OneBit(g, g.asyncs[j])
        {
          assert g.asyncs[k] in g.asyncs;
          ok := AsyncRound(g.trigs[i], g.asyncs[k]);
          if !ok { return; }
        }
      }
      ok := true;
    }

    /** A one-bit port changes when the drawn bit is another value. */
    method DrawAsync(q: string)
      requires Ready() && q in g.asyncs && OneBit(g, q)
      modifies this`drawn, this`n, b
      ensures Ready()
    {
      hide PlanOk, Facts, ClockOf, IsLabel, Matches, Inv, OneBit, InBits;
      var bit := rand(drawn) % 2;
      drawn := drawn + 1;
      FactsFit(g, b.State(), on, high, loose, n);
      var v := b.CurrentValue(q);
      InputLabel(g, q);
      if v != Some(Num(bit)) { var ok := PulseTurn(q, v == Some(Num(0)), q); }
    }

    /** `_inputs`. */
    method Inputs()
      requires Idle() && Narrow(g)
      modifies this`n, this`drawn, this`high, this`tag, b
      ensures Idle()
    {
      hide PlanOk, Facts, ClockOf, IsLabel, Matches, Decimal.Dec, OneBit, InputsTag;
      for k := 0 to 8
        invariant Idle()
      {
        InputsTagOk(k);
        tag := InputsTag(k);
        for i := 0 to |g.asyncs|
          invariant Idle()
        {
          assert g.asyncs[i] in g.asyncs;
          if OneBit(g, g.asyncs[i]) { DrawAsync(g.asyncs[i]); }
        }
        Run(1);
      }
    }

    /** All phases, the finished stimulus and its validation; None is an error. */
    method All(inputs: bool) returns (r: Option<Vec>)
      requires Idle() && g.c.settle >= ROC_WIDTH + g.c.sep && !g.c.reject && g.c.illegal == []
      modifies this`on, this`held, this`high, this`n, this`drawn, this`tag, this`loose, this`sampled, b
      ensures r.Some? <==> Narrow(g) && (forall i, j :: 0 <= i < j < |g.trigs| ==> g.trigs[i].name != g.trigs[j].name)
                           && (g.trigs == [] || forall q | q in g.asyncs :: OneBit(g, q)) && g.c.seed >= 0
      ensures r.Some? ==> ErrorFree(r.value, g.c.m) && r.value.header.seed == g.c.seed
    {
      hide PlanOk, Facts, ClockOf, IsLabel, Matches, OneBit, ErrorFree, Guard, Inv;
      NothingHeld(g, held, on);
      var ok := Activity(2);
      if !ok { return None; }
      sampled := true;
      Independent();
      Walk();
      Coincident();
      ok := Pairs();
      if !ok { return None; }
      ok := WithAsync();
      if !ok { return None; }
      if inputs { Inputs(); }
      r := Finish();
    }

    method Finish() returns (r: Option<Vec>)
      requires Idle() && sampled && g.c.settle >= ROC_WIDTH + g.c.sep && !g.c.reject && g.c.illegal == []
      modifies b
      ensures r.Some? <==> g.c.seed >= 0
      ensures r.Some? ==> ErrorFree(r.value, g.c.m) && r.value.header.seed == g.c.seed
    {
      hide PlanOk, ClockOf, IsLabel, Matches, ErrorFree, Guard, Renderable;
      GuardOf(g.c, b.State());
      PlanNumbered(g);
      hide Inv, Facts;
      r := b.Build();
      var report := Validator.Validate(r.value, g.c.m);
      if report.errors != [] { r := None; }
    }
  }

  /** `equiv_stimulus`: whatever is drawn, a stimulus without errors for exactly the models and triggers that
      are buildable, and a seed that is no negative number; None is an error. */
  method EquivStimulus(m: DutMap, triggers: seq<string>, seed: int, inputs: bool, rand: nat -> nat) returns (r: Option<Vec>)
    requires WellFormed(m) && Named(m)
    ensures r.Some? <==> Buildable(m, triggers) && seed >= 0
    ensures r.Some? ==> ErrorFree(r.value, m) && r.value.header.seed == seed
  {
    hide WellFormed, Named, Resolve, Changing, InBits, PortBits, ErrorFree, Narrow, OneBit, Ports, Others;
    if !TimesOk(m, SETTLE, PERIOD, MIN_SEP, MIN_SEP) { return None; }
    var c := Params(m, seed, SETTLE, PERIOD, Max(MIN_SEP, MinGap(MIN_SEP, m)), MIN_SEP, false, []);
    var ts := Resolved(m, triggers);
    if ts.None? { return None; }
    ResolvedNames(m, triggers, ts.value);
    BuildableIs(m, triggers, c, ts.value);
    hide Buildable;
    var s := new Stim(c, MIN_SEP, ts.value, rand);
    r := s.All(inputs);
  }
}
