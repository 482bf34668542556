/** Jumps that the analysis accepts (`jump` of verilatorize/analyze.py): where one may land, and exactly when
    the state computed there is right. */
module OverrideJumps {
  import opened OverrideState
  import opened OverrideFlow
  import opened OverrideRun
  import opened OverrideSound

  // ---- the exits of a statement are all taken by some run --------------------------------------------

  /** The first item whose body can be left by its end. */
  function FallArm(items: seq<Item>): (k: nat)
    ensures k <= |items|
    ensures if k < |items| then ExitsOf(items[k].body).falls else !ExitsItems(items).falls
  {
    if items == [] then 0 else if ExitsOf(items[0].body).falls then 0 else FallArm(items[1..]) + 1
  }

  /** The first item whose body can be left by a jump to `l`. */
  function JumpArm(items: seq<Item>, l: Label): (k: nat)
    ensures k <= |items|
    ensures if k < |items| then l in ExitsOf(items[k].body).jumps else l !in ExitsItems(items).jumps
  {
    if items == [] then 0 else if l in ExitsOf(items[0].body).jumps then 0 else JumpArm(items[1..], l) + 1
  }

  /** Choices that take a statement to its end. */
  function Through(s: Stmt): seq<nat>
    requires ExitsOf(s).falls
    decreases s, 1
  {
    match s
    case Seq(ss) => ThroughSeq(ss)
    case Timed(_, b) => Through(b)
    case Wait(_, b) => [1] + Through(b)
    case If(_, a, b) => if ExitsOf(a).falls then [0] + Through(a) else [1] + Through(b)
    case Case(_, items, d) =>
      var k := FallArm(items);
      [k] + Through(if k < |items| then items[k].body else d)
    case Call(_, t) => Through(t)
    case Loop(_, _) => [0]
    case Named(l, b) => if ExitsOf(b).falls then Through(b) else Escape(b, l)
    case _ => []
  }

  function ThroughSeq(ss: seq<Stmt>): seq<nat>
    requires ExitsSeq(ss).falls
    decreases ss, 0
  {
    if ss == [] then [] else Through(ss[0]) + ThroughSeq(ss[1..])
  }

  /** Choices that leave a statement by a jump to `l`. */
  function Escape(s: Stmt, l: Label): seq<nat>
    requires l in ExitsOf(s).jumps
    decreases s, 1
  {
    match s
    case Seq(ss) => EscapeSeq(ss, l)
    case Timed(_, b) => Escape(b, l)
    case Wait(_, b) => [1] + Escape(b, l)
    case If(_, a, b) => if l in ExitsOf(a).jumps then [0] + Escape(a, l) else [1] + Escape(b, l)
    case Case(_, items, d) =>
      var k := JumpArm(items, l);
      [k] + Escape(if k < |items| then items[k].body else d, l)
    case Call(_, t) => Escape(t, l)
    case Loop(_, b) => [2] + Escape(b, l)
    case Named(_, b) => Escape(b, l)
    case Jump(_, _) => []
  }

  function EscapeSeq(ss: seq<Stmt>, l: Label): seq<nat>
    requires l in ExitsSeq(ss).jumps
    decreases ss, 0
  {
    if l in ExitsOf(ss[0]).jumps then Escape(ss[0], l) else Through(ss[0]) + EscapeSeq(ss[1..], l)
  }

  lemma {:induction false} FallsThrough(s: Stmt, c: Conc, rest: seq<nat>, regs: set<Reg>)
    requires ExitsOf(s).falls
    ensures var r := Run(s, c, Through(s) + rest, regs); r.halt.Falls? && r.rest == rest
    decreases s, 1
  {
    hide Events, Labels, Written, Look, RunLoop, RunSeq, ThroughSeq, ExitsSeq, ExitsItems;
    assert [] + rest == rest;
    match s
    case Seq(ss) => SeqFallsThrough(ss, c, rest, regs);
    case Timed(e, b) => FallsThrough(b, map[], rest, regs);
    case Wait(e, b) =>
      Ahead(1, Through(b), rest);
      FallsThrough(b, map[], rest, regs);
    case If(e, a, b) =>
      var k, x := if ExitsOf(a).falls then 0 else 1, if ExitsOf(a).falls then a else b;
      Ahead(k, Through(x), rest);
      FallsThrough(x, c, rest, regs);
    case Case(e, items, d) =>
      var k := FallArm(items);
      var x := if k < |items| then items[k].body else d;
      assert k < |items| ==> items[k] in items;
      Ahead(k, Through(x), rest);
      FallsThrough(x, c, rest, regs);
    case Call(e, t) => FallsThrough(t, c, rest, regs);
    case Loop(e, b) => LoopLeft(e, b, c, rest, regs);
    case Named(l, b) =>
      if ExitsOf(b).falls { FallsThrough(b, c, rest, regs); } else { Escapes(b, l, c, rest, regs); }
    case _ =>
  }

  lemma Ahead(k: nat, o: seq<nat>, rest: seq<nat>)
    ensures ([k] + o + rest)[0] == k && ([k] + o + rest)[1..] == o + rest
  {}

  lemma LoopLeft(e: Expr, b: Stmt, c: Conc, rest: seq<nat>, regs: set<Reg>)
    ensures RunLoop(e, b, c, [0] + rest, regs) == Result([], Falls(c), rest)
  {
    assert ([0] + rest)[1..] == rest;
  }

  lemma {:induction false} SeqFallsThrough(ss: seq<Stmt>, c: Conc, rest: seq<nat>, regs: set<Reg>)
    requires ExitsSeq(ss).falls
    ensures var r := RunSeq(ss, c, ThroughSeq(ss) + rest, regs); r.halt.Falls? && r.rest == rest
    decreases ss, 0
  {
    hide Run, Through, ExitsOf;
    if ss == [] {
      assert [] + rest == rest;
    } else {
      var more := ThroughSeq(ss[1..]) + rest;
      assert Through(ss[0]) + ThroughSeq(ss[1..]) + rest == Through(ss[0]) + more;
      FallsThrough(ss[0], c, more, regs);
      SeqFallsThrough(ss[1..], Run(ss[0], c, Through(ss[0]) + more, regs).halt.c, rest, regs);
    }
  }

  lemma {:induction false} Escapes(s: Stmt, l: Label, c: Conc, rest: seq<nat>, regs: set<Reg>)
    requires l in ExitsOf(s).jumps
    ensures var r := Run(s, c, Escape(s, l) + rest, regs); r.halt.Jumped? && r.halt.goal == l && r.rest == rest
    decreases s, 1
  {
    hide Events, Labels, Written, Look, RunLoop, RunSeq, EscapeSeq, ExitsSeq, ExitsItems;
    match s
    case Seq(ss) => SeqEscapes(ss, l, c, rest, regs);
    case Timed(e, b) => Escapes(b, l, map[], rest, regs);
    case Wait(e, b) =>
      Ahead(1, Escape(b, l), rest);
      Escapes(b, l, map[], rest, regs);
    case If(e, a, b) =>
      var k, x := if l in ExitsOf(a).jumps then 0 else 1, if l in ExitsOf(a).jumps then a else b;
      Ahead(k, Escape(x, l), rest);
      Escapes(x, l, c, rest, regs);
    case Case(e, items, d) =>
      var k := JumpArm(items, l);
      var x := if k < |items| then items[k].body else d;
      assert k < |items| ==> items[k] in items;
      Ahead(k, Escape(x, l), rest);
      Escapes(x, l, c, rest, regs);
    case Call(e, t) => Escapes(t, l, c, rest, regs);
    case Loop(e, b) =>
      Ahead(2, Escape(b, l), rest);
      Escapes(b, l, c, rest, regs);
      LoopBody(e, b, c, [2] + Escape(b, l) + rest, regs);
    case Named(_, b) => Escapes(b, l, c, rest, regs);
    case Jump(Around(_), _) => assert [] + rest == rest;
  }

  lemma LoopBody(e: Expr, b: Stmt, c: Conc, o: seq<nat>, regs: set<Reg>)
    requires o != [] && o[0] == 2 && Run(b, c, o[1..], regs).halt.Jumped?
    ensures RunLoop(e, b, c, o, regs) == Run(b, c, o[1..], regs)
  {
    hide Run;
  }

  lemma {:induction false} SeqEscapes(ss: seq<Stmt>, l: Label, c: Conc, rest: seq<nat>, regs: set<Reg>)
    requires l in ExitsSeq(ss).jumps
    ensures var r := RunSeq(ss, c, EscapeSeq(ss, l) + rest, regs); r.halt.Jumped? && r.halt.goal == l && r.rest == rest
    decreases ss, 0
  {
    hide Run, Through, Escape, ExitsOf;
    if l in ExitsOf(ss[0]).jumps {
      Escapes(ss[0], l, c, rest, regs);
    } else {
      var more := EscapeSeq(ss[1..], l) + rest;
      assert Through(ss[0]) + EscapeSeq(ss[1..], l) + rest == Through(ss[0]) + more;
      FallsThrough(ss[0], c, more, regs);
      SeqEscapes(ss[1..], l, Run(ss[0], c, Through(ss[0]) + more, regs).halt.c, rest, regs);
    }
  }

  // ---- exactly when a landing is right ---------------------------------------------------------------

  /** A run from `c` that jumps to the end of `s`, out of the statement that has the name. */
  ghost predicate LandsAfter(s: Stmt, c: Conc, o: seq<nat>, ctx: Ctx)
    requires s.Named?
  {
    var r := Run(s.body, c, o, ctx.regs);
    r.halt.Jumped? && r.halt.goal == s.name
  }

  /** If this run jumps to the end of `s`, the abstract state there covers it. */
  ghost predicate LandsRight(s: Stmt, st: State, c: Conc, o: seq<nat>, ctx: Ctx)
    requires s.Named? && Flow(s, st, ctx).Flows?
  {
    LandsAfter(s, c, o, ctx) ==> Covers(Flow(s, st, ctx).st, Run(s.body, c, o, ctx.regs).halt.c)
  }

  /** A jump can land after a statement exactly when one inside can be reached that names it and is not
      caught by the same name further in. */
  lemma LandingReachable(s: Stmt, st: State, ctx: Ctx)
    requires s.Named? && Flow(s, st, ctx).Flows? && FitInside(s, st, ctx)
    ensures (exists c, o :: Covers(st, c) && LandsAfter(s, c, o, ctx)) <==> LandedOn(s)
  {
    hide Flow, ExitsOf, Fit, Covers, Run;
    BodyFits(s, st, ctx);
    if LandedOn(s) {
      var c, o := Witness(st), Escape(s.body, s.name) + [];
      WitnessCovers(st);
      Escapes(s.body, s.name, c, [], ctx.regs);
      assert Covers(st, c) && LandsAfter(s, c, o, ctx);
    }
    if c, o :| Covers(st, c) && LandsAfter(s, c, o, ctx) { RunSound(s.body, st, c, o, ctx); }
  }

  lemma BodyFits(s: Stmt, st: State, ctx: Ctx)
    requires s.Named? && Flow(s, st, ctx).Flows? && FitInside(s, st, ctx)
    ensures Flow(s.body, st, ctx) == Flow(s, st, ctx) && Fit(s.body, st, ctx)
  {}

  /** Of an accepted statement whose inner landings are right: every run that jumps to its end is covered by
      the state after it if and only if no landing is reachable or that state names no override exactly. */
  lemma JumpExact(s: Stmt, st: State, ctx: Ctx)
    requires s.Named? && Flow(s, st, ctx).Flows? && FitInside(s, st, ctx)
    ensures (forall c, o :: Covers(st, c) ==> LandsRight(s, st, c, o, ctx))
            <==> (!(exists c, o :: Covers(st, c) && LandsAfter(s, c, o, ctx)) || Mild(Flow(s, st, ctx).st))
  {
    hide FitInside, Flow, Covers, Mild, LandsRight, LandsAfter;
    forall c, o | Covers(st, c)
      ensures LandsRight(s, st, c, o, ctx) <==> !LandsAfter(s, c, o, ctx) || Mild(Flow(s, st, ctx).st)
    {
      OneLanding(s, st, c, o, ctx);
    }
  }

  lemma OneLanding(s: Stmt, st: State, c: Conc, o: seq<nat>, ctx: Ctx)
    requires s.Named? && Flow(s, st, ctx).Flows? && FitInside(s, st, ctx) && Covers(st, c)
    ensures LandsRight(s, st, c, o, ctx) <==> !LandsAfter(s, c, o, ctx) || Mild(Flow(s, st, ctx).st)
  {
    hide FitInside, Fit, ExitsOf, Flow, Covers, Mild, Run;
    BodyFits(s, st, ctx);
    RunSound(s.body, st, c, o, ctx);
    if LandsAfter(s, c, o, ctx) {
      var end := Run(s.body, c, o, ctx.regs).halt.c;
      if Mild(Flow(s, st, ctx).st) { MildCovers(Flow(s, st, ctx).st, end); } else { ExactRefuses(Flow(s, st, ctx).st, end); }
    }
  }

  lemma ExactRefuses(st: State, c: Conc)
    requires !Mild(st) && AllClear(c)
    ensures !Covers(st, c)
  {
    var n :| n in st && st[n] != Ambiguous && st[n] != Fresh;
    assert !Admits(Get(st, n), Look(c, n));
  }

  // ---- a whole block ---------------------------------------------------------------------------------

  /** Every run of `s` from a covered state ends in a covered state. */
  ghost predicate Tracked(s: Stmt, st: State, ctx: Ctx)
    requires Flow(s, st, ctx).Flows?
  {
    forall c, o :: Covers(st, c) ==>
      var r := Run(s, c, o, ctx.regs); r.halt.Falls? ==> Covers(Flow(s, st, ctx).st, r.halt.c)
  }

  /** So does every run of every statement inside, from the states the analysis computes for it. */
  ghost predicate AllTracked(s: Stmt, st: State, ctx: Ctx)
    decreases s, 2
  {
    Flow(s, st, ctx).Flows? ==> AllTrackedInside(s, st, ctx) && Tracked(s, st, ctx)
  }

  ghost predicate AllTrackedInside(s: Stmt, st: State, ctx: Ctx)
    decreases s, 1
  {
    match s
    case Seq(ss) => AllTrackedSeq(ss, st, ctx)
    case Timed(_, b) => AllTracked(b, map[], ctx)
    case Wait(_, b) => AllTracked(b, Blur(st), ctx)
    case If(_, a, b) => AllTracked(a, st, ctx) && AllTracked(b, st, ctx)
    case Case(_, items, d) => (forall x | x in items :: AllTracked(x.body, st, ctx)) && AllTracked(d, st, ctx)
    case Call(_, t) => AllTracked(t, st, ctx.(inTask := true, forcing := ctx.forcing || Forces(t)))
    case Loop(_, b) =>
      var fix := Iterate(b, st, st, ctx, Bound(b, st));
      fix.Flows? ==> AllTracked(b, fix.st, ctx)
    case Named(_, b) => AllTracked(b, st, ctx)
    case _ => true
  }

  ghost predicate AllTrackedSeq(ss: seq<Stmt>, st: State, ctx: Ctx)
    decreases ss, 0
  {
    ss == [] || (AllTracked(ss[0], st, ctx) && (Flow(ss[0], st, ctx).Flows? ==> AllTrackedSeq(ss[1..], Flow(ss[0], st, ctx).st, ctx)))
  }

  /** The condition is exact for a whole block: the analysis tracks every run of every statement of it if and
      only if its jumps land, each at the end of what it names, where no override is named exactly. */
  lemma {:induction false} LandableExact(s: Stmt, st: State, ctx: Ctx)
    requires DelaysPlain(s, ctx.regs) && Distinct(s)
    ensures AllTracked(s, st, ctx) <==> Landable(s, st, ctx)
    decreases s, 2
  {
    hide Flow, DelaysPlain, Distinct, AllTrackedInside, LandableInside, LandedOn, Mild, Tracked;
    if Flow(s, st, ctx).Flows? {
      LandableInsideExact(s, st, ctx);
      if LandableInside(s, st, ctx) { TrackedExact(s, st, ctx); }
    }
  }

  lemma TrackedExact(s: Stmt, st: State, ctx: Ctx)
    requires Flow(s, st, ctx).Flows? && FitInside(s, st, ctx)
    ensures Tracked(s, st, ctx) <==> (LandedOn(s) ==> Mild(Flow(s, st, ctx).st))
  {
    hide Flow, ExitsOf, DelaysPlain, Distinct, LandableInside, Mild, Covers, Run;
    if s.Named? {
      LandingReachable(s, st, ctx);
      JumpExact(s, st, ctx);
      if Tracked(s, st, ctx) {
        forall c, o | Covers(st, c)
          ensures LandsRight(s, st, c, o, ctx)
        {
          LandingFalls(s, c, o, ctx);
        }
      }
    }
    if LandedOn(s) ==> Mild(Flow(s, st, ctx).st) {
      FitFrom(s, st, ctx);
      forall c, o | Covers(st, c)
        ensures var r := Run(s, c, o, ctx.regs); r.halt.Falls? ==> Covers(Flow(s, st, ctx).st, r.halt.c)
      {
        RunSound(s, st, c, o, ctx);
      }
    }
  }

  /** Where a run lands it goes on behind the statement. */
  lemma LandingFalls(s: Stmt, c: Conc, o: seq<nat>, ctx: Ctx)
    requires s.Named?
    ensures LandsAfter(s, c, o, ctx) ==> Run(s, c, o, ctx.regs).halt == Falls(Run(s.body, c, o, ctx.regs).halt.c)
  {}

  lemma FitFrom(s: Stmt, st: State, ctx: Ctx)
    requires Flow(s, st, ctx).Flows? && FitInside(s, st, ctx) && (LandedOn(s) ==> Mild(Flow(s, st, ctx).st))
    ensures Fit(s, st, ctx)
  {}

  lemma {:induction false} LandableInsideExact(s: Stmt, st: State, ctx: Ctx)
    requires DelaysPlain(s, ctx.regs) && Distinct(s)
    ensures AllTrackedInside(s, st, ctx) <==> LandableInside(s, st, ctx)
    decreases s, 1
  {
    hide Flow, AllTracked, Landable, Iterate, AllTrackedSeq, LandableSeq;
    match s
    case Seq(ss) => LandableSeqExact(ss, st, ctx);
    case Timed(_, b) => LandableExact(b, map[], ctx);
    case Wait(_, b) => LandableExact(b, Blur(st), ctx);
    case If(_, a, b) =>
      LandableExact(a, st, ctx);
      LandableExact(b, st, ctx);
    case Case(_, items, d) =>
      LandableExact(d, st, ctx);
      forall x | x in items
        ensures AllTracked(x.body, st, ctx) <==> Landable(x.body, st, ctx)
      {
        LandableExact(x.body, st, ctx);
      }
    case Call(_, t) => LandableExact(t, st, ctx.(inTask := true, forcing := ctx.forcing || Forces(t)));
    case Loop(_, b) =>
      var fix := Iterate(b, st, st, ctx, Bound(b, st));
      if fix.Flows? { LandableExact(b, fix.st, ctx); }
    case Named(_, b) => LandableExact(b, st, ctx);
    case _ =>
  }

  lemma {:induction false} LandableSeqExact(ss: seq<Stmt>, st: State, ctx: Ctx)
    requires DelaysPlain(Seq(ss), ctx.regs) && Distinct(Seq(ss))
    ensures AllTrackedSeq(ss, st, ctx) <==> LandableSeq(ss, st, ctx)
    decreases ss, 0
  {
    hide Flow, AllTracked, Landable;
    if ss != [] {
      assert ss[0] in ss && forall x | x in ss[1..] :: x in ss;
      HeadApart(ss);
      LandableExact(ss[0], st, ctx);
      if Flow(ss[0], st, ctx).Flows? { LandableSeqExact(ss[1..], Flow(ss[0], st, ctx).st, ctx); }
    }
  }

  // ---- what suffices ---------------------------------------------------------------------------------

  /** A block that forces nothing, through tasks included, or whose jumps are all refused, meets the condition. */
  lemma GuardedLands(s: Stmt, st: State, ctx: Ctx)
    requires JumpsRefused(s, ctx.forcing) || (!ForcesDeep(s) && Mild(st))
    ensures Landable(s, st, ctx)
  {
    if JumpsRefused(s, ctx.forcing) { RefusedLands(s, st, ctx); } else { UnforcedLands(s, st, ctx); }
  }

  lemma {:induction false} RefusedLands(s: Stmt, st: State, ctx: Ctx)
    requires JumpsRefused(s, ctx.forcing)
    ensures Landable(s, st, ctx) && (Flow(s, st, ctx).Flows? ==> ExitsOf(s).jumps == {})
    decreases s, 1
  {
    hide FlowItems, FlowSeq, Iterate, Merge, ReadsOk, Forces, Bound, Mild, ExitsSeq, ExitsItems;
    match s
    case Seq(ss) => RefusedSeq(ss, st, ctx);
    case Timed(_, b) => RefusedLands(b, map[], ctx);
    case Wait(_, b) => RefusedLands(b, Blur(st), ctx);
    case If(_, a, b) =>
      RefusedLands(a, st, ctx);
      RefusedLands(b, st, ctx);
    case Case(_, items, d) =>
      RefusedLands(d, st, ctx);
      RefusedItems(items, st, ctx);
    case Call(_, t) => RefusedLands(t, st, ctx.(inTask := true, forcing := ctx.forcing || Forces(t)));
    case Loop(_, b) =>
      var fix := Iterate(b, st, st, ctx, Bound(b, st));
      if fix.Flows? {
        IterateFixed(b, st, st, ctx, Bound(b, st));
        RefusedLands(b, fix.st, ctx);
      }
    case Named(_, b) => RefusedLands(b, st, ctx);
    case _ =>
  }

  lemma {:induction false} RefusedItems(items: seq<Item>, st: State, ctx: Ctx)
    requires forall x | x in items :: JumpsRefused(x.body, ctx.forcing)
    ensures (forall x | x in items :: Landable(x.body, st, ctx)) && (FlowItems(items, st, ctx).Paths? ==> ExitsItems(items).jumps == {})
    decreases items, 0
  {
    hide Flow, Landable, ExitsOf;
    if items != [] {
      assert items[0] in items && forall x | x in items[1..] :: x in items;
      RefusedLands(items[0].body, st, ctx);
      RefusedItems(items[1..], st, ctx);
      assert forall x | x in items :: x == items[0] || x in items[1..];
    }
  }

  lemma {:induction false} RefusedSeq(ss: seq<Stmt>, st: State, ctx: Ctx)
    requires forall x | x in ss :: JumpsRefused(x, ctx.forcing)
    ensures LandableSeq(ss, st, ctx) && (FlowSeq(ss, st, ctx).Flows? ==> ExitsSeq(ss).jumps == {})
    decreases ss, 0
  {
    hide Flow, Landable, ExitsOf;
    if ss != [] {
      assert ss[0] in ss && forall x | x in ss[1..] :: x in ss;
      RefusedLands(ss[0], st, ctx);
      if Flow(ss[0], st, ctx).Flows? { RefusedSeq(ss[1..], Flow(ss[0], st, ctx).st, ctx); }
    }
  }

  lemma {:induction false} UnforcedLands(s: Stmt, st: State, ctx: Ctx)
    requires !ForcesDeep(s) && Mild(st)
    ensures Landable(s, st, ctx)
    decreases s, 1
  {
    hide FlowItems, Merge, ReadsOk, Forces, Bound, Mild, LandedOn;
    if Flow(s, st, ctx).Flows? {
      FlowMild(s, st, ctx);
      hide Flow;
      match s
      case Seq(ss) => UnforcedSeq(ss, st, ctx);
      case Timed(_, b) =>
        EmptyMild();
        UnforcedLands(b, map[], ctx);
      case Wait(_, b) =>
        BlurMild(st);
        UnforcedLands(b, Blur(st), ctx);
      case If(_, a, b) =>
        UnforcedLands(a, st, ctx);
        UnforcedLands(b, st, ctx);
      case Case(_, items, d) =>
        UnforcedLands(d, st, ctx);
        forall x | x in items
          ensures Landable(x.body, st, ctx)
        {
          UnforcedLands(x.body, st, ctx);
        }
      case Call(_, t) => UnforcedLands(t, st, ctx.(inTask := true, forcing := ctx.forcing || Forces(t)));
      case Loop(_, b) =>
        var fix := Iterate(b, st, st, ctx, Bound(b, st));
        if fix.Flows? {
          IterateMild(b, st, st, ctx, Bound(b, st));
          UnforcedLands(b, fix.st, ctx);
        }
      case Named(_, b) => UnforcedLands(b, st, ctx);
      case _ =>
    }
  }

  lemma EmptyMild()
    ensures Mild(map[])
  {}

  lemma BlurMild(st: State)
    ensures Mild(Blur(st))
  {}

  lemma {:induction false} UnforcedSeq(ss: seq<Stmt>, st: State, ctx: Ctx)
    requires Mild(st) && forall x | x in ss :: !ForcesDeep(x)
    ensures LandableSeq(ss, st, ctx)
    decreases ss, 0
  {
    hide Flow, Landable, ForcesDeep, Mild;
    if ss != [] {
      assert ss[0] in ss && forall x | x in ss[1..] :: x in ss;
      UnforcedLands(ss[0], st, ctx);
      if Flow(ss[0], st, ctx).Flows? {
        FlowMild(ss[0], st, ctx);
        UnforcedSeq(ss[1..], Flow(ss[0], st, ctx).st, ctx);
      }
    }
  }
}
