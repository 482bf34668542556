/** The walker of analyze.py with its mutable tables (`_stale`, `_dry`, `_forcing`) and its
    fixpoint loops, proved against the transfer function; the block-level theorem; and the two
    ways in which an accepted block can still be analysed wrongly. */
module OverrideWalker {
  import opened OverrideState
  import opened OverrideFlow
  import opened OverrideRun
  import opened OverrideSound
  import opened OverrideJumps

  datatype Key = Key(reg: Reg, pos: Span)

  type Table = map<Key, Abs>

  // ---- the table of recorded reads -----------------------------------------------------------------

  /** `stale_read`: a read already recorded with another state is refused, except that a fresh
      read is right in every state. */
  function Record(m: Table, r: Rec): Option<Table> {
    var k := Key(r.reg, r.pos);
    var was := if k in m then m[k] else r.active;
    if was == Fresh || r.active == Fresh then Some(m[k := Fresh])
    else if was != r.active then None
    else Some(m[k := r.active])
  }

  function RecordAll(m: Table, recs: seq<Rec>): Option<Table>
    decreases recs
  {
    if recs == [] then Some(m) else
    var x := Record(m, recs[0]);
    if x.None? then None else RecordAll(x.value, recs[1..])
  }

  lemma {:induction false} RecordAllJoin(m: Table, a: seq<Rec>, b: seq<Rec>)
    ensures RecordAll(m, a + b) ==
            var x := RecordAll(m, a); if x.None? then None else RecordAll(x.value, b)
    decreases a
  {
    if a == [] {
      assert a + b == b;
    } else {
      assert (a + b)[1..] == a[1..] + b;
      if Record(m, a[0]).Some? { RecordAllJoin(Record(m, a[0]).value, a[1..], b); }
    }
  }

  lemma RecordOne(m: Table, r: Rec, rest: seq<Rec>)
    ensures RecordAll(m, [r]) == Record(m, r)
    ensures RecordAll(m, [r] + rest) == if Record(m, r).None? then None else RecordAll(Record(m, r).value, rest)
  {
    assert [r][1..] == [] && ([r] + rest)[1..] == rest;
  }

  predicate Agrees(table: Abs, active: Abs) { table == active || table == Fresh }

  /** The table holds every read recorded, agreeing with each record, and nothing else new. */
  lemma {:induction false} RecordAllHolds(m: Table, recs: seq<Rec>)
    requires RecordAll(m, recs).Some?
    ensures var t := RecordAll(m, recs).value;
            && (forall r | r in recs :: Key(r.reg, r.pos) in t && Agrees(t[Key(r.reg, r.pos)], r.active))
            && (forall k | k in t :: k in m || exists r :: r in recs && Key(r.reg, r.pos) == k)
            && (forall k | k in m :: k in t && Agrees(t[k], m[k]))
    decreases recs
  {
    if recs != [] {
      var x := Record(m, recs[0]).value;
      RecordAllHolds(x, recs[1..]);
      var t, k0 := RecordAll(m, recs).value, Key(recs[0].reg, recs[0].pos);
      assert k0 in x && Agrees(x[k0], recs[0].active) && Agrees(t[k0], x[k0]);
      forall k | k in t
        ensures k in m || exists r :: r in recs && Key(r.reg, r.pos) == k
      {
        if k !in m {
          if k == k0 {
            assert recs[0] in recs;
          } else {
            assert k !in x;
            var r :| r in recs[1..] && Key(r.reg, r.pos) == k;
            assert r in recs;
          }
        }
      }
    }
  }

  // ---- blocks -----------------------------------------------------------------------------------------

  function BlockCtx(s: Stmt, regs: set<Reg>): Ctx { Ctx(regs, false, Forces(s)) }

  /** `block`: an always body without its own timing control restarts without suspending, so it
      is analysed from the state its own previous run may have left. */
  function BlockFlow(s: Stmt, loops: bool, regs: set<Reg>): Out {
    if loops then Iterate(s, map[], map[], BlockCtx(s, regs), Bound(s, map[]))
    else Flow(s, map[], BlockCtx(s, regs))
  }

  function RunBlock(s: Stmt, loops: bool, o: seq<nat>, regs: set<Reg>): Result {
    if loops then RunLoop([], s, map[], o, regs) else Run(s, map[], o, regs)
  }

  /** The analysis of a block always ends. */
  lemma BlockTerminates(s: Stmt, loops: bool, regs: set<Reg>)
    ensures BlockFlow(s, loops, regs) != Exhausted
  {
    if loops {
      FirstStepAscends(s, map[], BlockCtx(s, regs));
      IterateTerminates(s, map[], map[], BlockCtx(s, regs), Bound(s, map[]));
    } else {
      FlowTerminates(s, map[], BlockCtx(s, regs));
    }
  }

  /** What the rewrite relies on: a read in the table is replaced by the value of an override
      that really is the last one, and a read left alone has nothing pending. */
  ghost predicate Correct(t: Table, e: Event) {
    if e.pos.Some? && Key(e.reg, e.pos.value) in t then Matches(t[Key(e.reg, e.pos.value)], e.pend)
    else Clear(e.pend)
  }

  /** Every jump of the block lands where no override is named exactly. */
  ghost predicate JumpsLand(s: Stmt, loops: bool, regs: set<Reg>)
    requires BlockFlow(s, loops, regs).Flows?
  {
    Landable(s, if loops then BlockFlow(s, loops, regs).st else map[], BlockCtx(s, regs))
  }

  /** The guards: read positions are distinct (and new to the table), no intra-assignment delay assigns a
      forced register, and jumps land where no override is named exactly. */
  ghost predicate Fitting(s: Stmt, loops: bool, regs: set<Reg>, before: Table)
    requires BlockFlow(s, loops, regs).Flows?
  {
    && Distinct(s)
    && (forall k | k in before :: k.pos !in AllPos(s))
    && DelaysPlain(s, regs)
    && JumpsLand(s, loops, regs)
  }

  /** The last guard holds of a block whose jumps are all refused, and of one that forces nothing even through
      its tasks. */
  lemma GuardedFits(s: Stmt, loops: bool, regs: set<Reg>)
    requires BlockFlow(s, loops, regs).Flows? && (JumpsRefused(s, Forces(s)) || !ForcesDeep(s))
    ensures JumpsLand(s, loops, regs)
  {
    EmptyMild();
    if loops {
      if !ForcesDeep(s) { IterateMild(s, map[], map[], BlockCtx(s, regs), Bound(s, map[])); }
      GuardedLands(s, BlockFlow(s, loops, regs).st, BlockCtx(s, regs));
    } else {
      GuardedLands(s, map[], BlockCtx(s, regs));
    }
  }

  /** Every read of every execution agrees with the records of the analysis. */
  lemma BlockJust(s: Stmt, loops: bool, regs: set<Reg>, o: seq<nat>)
    requires BlockFlow(s, loops, regs).Flows? && Distinct(s) && DelaysPlain(s, regs) && JumpsLand(s, loops, regs)
    ensures AllJust(BlockFlow(s, loops, regs).recs, RunBlock(s, loops, o, regs).events)
    ensures EventsIn(RunBlock(s, loops, o, regs).events, AllPos(s))
  {
    hide Merge, Distinct, DelaysPlain, AllPos, Landable, Just, Flow, Run, RunLoop;
    var ctx, out := BlockCtx(s, regs), BlockFlow(s, loops, regs);
    EmptyCovers();
    if loops {
      var n := Bound(s, map[]);
      IterateFixed(s, map[], map[], ctx, n);
      MergeIsJoin([map[], Flow(s, out.st, ctx).st], out.st);
      assert Le([map[], Flow(s, out.st, ctx).st][0], out.st) && Le([map[], Flow(s, out.st, ctx).st][1], out.st);
      CoversUp(map[], out.st, map[]);
      RunLoopSound([], s, out.st, map[], o, ctx);
      assert ExprRecs([], out.st) + Flow(s, out.st, ctx).recs == out.recs;
      EventPositionsLoop([], s, map[], o, regs);
      assert ExprPos([]) + AllPos(s) == AllPos(s);
    } else {
      RunSound(s, map[], map[], o, ctx);
      EventPositions(s, map[], o, regs);
    }
  }

  /** Soundness: in every execution of an accepted block, however long, every read is treated
      correctly by the table the analysis leaves. */
  lemma BlockSound(s: Stmt, loops: bool, regs: set<Reg>, before: Table, o: seq<nat>)
    requires BlockFlow(s, loops, regs).Flows?
    requires RecordAll(before, BlockFlow(s, loops, regs).recs).Some?
    requires Fitting(s, loops, regs, before)
    ensures var t := RecordAll(before, BlockFlow(s, loops, regs).recs).value;
            forall e | e in RunBlock(s, loops, o, regs).events :: Correct(t, e)
  {
    hide JumpsLand, Distinct, DelaysPlain, AllPos, BlockFlow, RunBlock, RecordAll;
    var out, r := BlockFlow(s, loops, regs), RunBlock(s, loops, o, regs);
    var t := RecordAll(before, out.recs).value;
    BlockJust(s, loops, regs, o);
    RecordAllHolds(before, out.recs);
    forall e | e in r.events
      ensures Correct(t, e)
    {
      assert Just(out.recs, e);
      if e.pos.Some? && Key(e.reg, e.pos.value) in t {
        var x :| x in out.recs && Key(x.reg, x.pos) == Key(e.reg, e.pos.value);
        assert SameRead(x, e);
      }
    }
  }

  // ---- where the guards are needed -------------------------------------------------------------------

  /** The abstract state after a statement covers the concrete one after a run of it from `c`. */
  ghost predicate Tracked(s: Stmt, st: State, c: Conc, o: seq<nat>, ctx: Ctx) {
    var r, out := Run(s, c, o, ctx.regs), Flow(s, st, ctx);
    r.halt.Falls? && out.Flows? ==> Covers(out.st, r.halt.c)
  }

  /** After `x = #d e;` the empty state is right exactly when no target is a forced register. */
  lemma DelayedWriteExact(targets: set<Reg>, expr: Expr, st: State, ctx: Ctx)
    requires ReadsOk(expr, st, ctx, false)
    ensures (forall c, o :: Covers(st, c) ==> Tracked(DelayedWrite(targets, expr), st, c, o, ctx))
            <==> targets !! ctx.regs
  {
    var s := DelayedWrite(targets, expr);
    if targets !! ctx.regs {
      assert targets * ctx.regs == {};
      assert Written(map[], targets * ctx.regs) == map[];
      EmptyCovers();
    } else {
      var n :| n in targets && n in ctx.regs;
      var c := Witness(st);
      WitnessCovers(st);
      var r, out := Run(s, c, [], ctx.regs), Flow(s, st, ctx);
      assert out.st == map[] && Look(r.halt.c, n).written;
      assert !Admits(Get(out.st, n), Look(r.halt.c, n));
      assert Covers(st, c) && !Tracked(s, st, c, [], ctx);
    }
  }

  const X: Reg := "X"
  const P: Span := Span(100, 101)
  const Q: Span := Span(40, 52)

  /** `X = #1 d; y = X;` with X forced elsewhere: accepted, and the read is left as a read of the
      net although the write is still pending. */
  lemma DelayedForcedWriteIsMissed()
    ensures var s := Seq([DelayedWrite({X}, []), Eval([Read(X, P)])]);
            && BlockFlow(s, false, {X}) == Flows(map[], [])
            && Event(X, Some(P), Pend(NoForce, true)) in RunBlock(s, false, [], {X}).events
            && !Correct(map[], Event(X, Some(P), Pend(NoForce, true)))
  {
    var a, b := DelayedWrite({X}, []), Eval([Read(X, P)]);
    var ctx := BlockCtx(Seq([a, b]), {X});
    assert [a, b][1..] == [b] && [b][1..] == [];
    assert Flow(a, map[], ctx) == Flows(map[], []);
    assert Flow(b, map[], ctx) == Flows(map[], []) by {
      assert ExprRecs([Read(X, P)], map[]) == PartRecs(Read(X, P), map[]) + ExprRecs([Read(X, P)][1..], map[]);
    }
    assert FlowSeq([b], map[], ctx) == Flows(map[], []);
    assert FlowSeq([a, b], map[], ctx) == Flows(map[], []);
    var c := Written(map[], {X} * {X});
    assert Look(c, X) == Pend(NoForce, true);
    assert Run(a, map[], [], {X}) == Result([], Falls(c), []);
    assert Events([Read(X, P)], c) == [Event(X, Some(P), Look(c, X))] + Events([Read(X, P)][1..], c);
    assert Run(b, c, [], {X}).events == [Event(X, Some(P), Look(c, X))];
    assert RunSeq([b], c, [], {X}).events == Run(b, c, [], {X}).events + [];
    assert RunSeq([a, b], map[], [], {X}).events == [] + RunSeq([b], c, [], {X}).events;
    assert Run(Seq([a, b]), map[], [], {X}) == RunSeq([a, b], map[], [], {X});
  }

  const Skipped := If([], Jump(Around("inner"), false), Skip)
  const Guarded := Seq([Skipped, Enter])
  const Inner := Named("inner", Guarded)
  const Y := Eval([Read(X, P)])

  /** `begin : inner if (a) disable inner; t; end y = X;` where task t does `assign X = k;`: the block holds
      no assign itself, so the disable is accepted, and the read is recorded as seeing the
      override even on the path that skipped the task. */
  lemma JumpOverForcingTaskIsMissed()
    ensures var s := Seq([Inner, Y]);
            && BlockFlow(s, false, {X}).Flows?
            && RecordAll(map[], BlockFlow(s, false, {X}).recs) == Some(map[Key(X, P) := At(Q)])
            && Event(X, Some(P), Pend(NoForce, false)) in RunBlock(s, false, [0], {X}).events
            && !Correct(map[Key(X, P) := At(Q)], Event(X, Some(P), Pend(NoForce, false)))
  {
    hide Flow, FlowSeq, Run, RunSeq;
    MissedFlow();
    MissedRun();
  }

  const Enter := Call([], Force(X, [], Q))
  const Held: State := map[X := At(Q)]
  const Seen := Event(X, Some(P), Pend(NoForce, false))

  lemma MissedFlow()
    ensures BlockFlow(Seq([Inner, Y]), false, {X}) == Flows(Held, [Rec(X, P, At(Q))])
  {
    var ctx := BlockCtx(Seq([Inner, Y]), {X});
    assert !ctx.forcing by {
      assert !Forces(Skipped) && !Forces(Enter) && !Forces(Guarded) && !Forces(Inner) && !Forces(Y);
    }
    MissedInner(ctx);
    MissedRead(ctx);
    hide Flow;
    FlowPair(Inner, Y, map[], ctx);
    assert Flow(Seq([Inner, Y]), map[], ctx) == Flows(Held, [] + [Rec(X, P, At(Q))]);
  }

  /** A list of two statements. */
  lemma FlowPair(a: Stmt, b: Stmt, st: State, ctx: Ctx)
    requires Flow(a, st, ctx).Flows?
    ensures Flow(Seq([a, b]), st, ctx) == Then(Flow(a, st, ctx).recs, Flow(b, Flow(a, st, ctx).st, ctx))
  {
    SeqFlow([a, b], st, ctx);
    hide Flow;
    var x, y := Flow(a, st, ctx), Flow(b, Flow(a, st, ctx).st, ctx);
    assert [a, b][1..] == [b] && [b][1..] == [];
    assert FlowSeq([b], x.st, ctx) == if !y.Flows? then y else Then(y.recs, Flows(y.st, []));
    if y.Flows? { assert y.recs + [] == y.recs; }
  }

  lemma SeqFlow(ss: seq<Stmt>, st: State, ctx: Ctx)
    ensures Flow(Seq(ss), st, ctx) == FlowSeq(ss, st, ctx)
  {}

  lemma MissedInner(ctx: Ctx)
    requires !ctx.forcing
    ensures Flow(Inner, map[], ctx) == Flows(Held, [])
  {
    assert Merge([map[], map[]]) == map[];
    assert Flow(Skipped, map[], ctx) == Flows(map[], []);
    assert Flow(Enter, map[], ctx) == Flows(Held, []);
    FlowPair(Skipped, Enter, map[], ctx);
    assert Flow(Guarded, map[], ctx) == Flows(Held, [] + []);
  }

  lemma MissedRead(ctx: Ctx)
    requires !ctx.inTask
    ensures Flow(Y, Held, ctx) == Flows(Held, [Rec(X, P, At(Q))])
  {
    assert ExprRecs([Read(X, P)], Held) == PartRecs(Read(X, P), Held) + ExprRecs([Read(X, P)][1..], Held);
  }

  lemma MissedRun()
    ensures RunBlock(Seq([Inner, Y]), false, [0], {X}).events == [Seen]
  {
    MissedRunInner();
    MissedRunRead();
    hide Run;
    RunPair(Inner, Y, map[], [0]);
    assert Run(Seq([Inner, Y]), map[], [0], {X}) == Result([] + [Seen], Falls(map[]), []);
  }

  lemma RunPair(a: Stmt, b: Stmt, c: Conc, o: seq<nat>)
    ensures var x := Run(a, c, o, {X});
            Run(Seq([a, b]), c, o, {X}) ==
              if !x.halt.Falls? then x else Before(x.events, Run(b, x.halt.c, x.rest, {X}))
  {
    SeqRun([a, b], c, o);
    hide Run;
    var x := Run(a, c, o, {X});
    assert [a, b][1..] == [b] && [b][1..] == [];
    if x.halt.Falls? {
      var y := Run(b, x.halt.c, x.rest, {X});
      assert RunSeq([b], x.halt.c, x.rest, {X}) == if !y.halt.Falls? then y else Before(y.events, Result([], y.halt, y.rest));
      assert y.events + [] == y.events;
    }
  }

  lemma SeqRun(ss: seq<Stmt>, c: Conc, o: seq<nat>)
    ensures Run(Seq(ss), c, o, {X}) == RunSeq(ss, c, o, {X})
  {}

  lemma MissedRunInner()
    ensures Run(Inner, map[], [0], {X}) == Result([], Falls(map[]), [])
  {
    var o: seq<nat> := [0];
    assert o[1..] == [];
    assert Run(Skipped, map[], [0], {X}) == Result([], Jumped("inner", map[]), []);
    RunPair(Skipped, Enter, map[], [0]);
    assert Run(Guarded, map[], [0], {X}) == Result([], Jumped("inner", map[]), []);
  }

  const Early := Named("inner", Skipped)

  /** `begin begin : inner if (a) disable inner; end t; y = X; end` with the same t: the jump lands before
      t is called, where no override is pending, so the block meets the guard. */
  lemma JumpBeforeForcingLands()
    ensures var s := Seq([Seq([Early, Enter]), Y]);
            BlockFlow(s, false, {X}) == Flows(Held, [Rec(X, P, At(Q))]) && JumpsLand(s, false, {X})
  {
    var s := Seq([Seq([Early, Enter]), Y]);
    var ctx := BlockCtx(s, {X});
    assert !ctx.forcing by {
      assert !Forces(Skipped) && !Forces(Early) && !Forces(Enter) && !Forces(Seq([Early, Enter])) && !Forces(Y);
    }
    EarlyFlow(ctx);
    MissedRead(ctx);
    EarlyLands(ctx);
    hide Flow;
    FlowPair(Seq([Early, Enter]), Y, map[], ctx);
    PairLands(Seq([Early, Enter]), Y, map[], ctx);
    assert Landable(Y, Held, ctx);
    assert [] + [Rec(X, P, At(Q))] == [Rec(X, P, At(Q))];
  }

  lemma EarlyFlow(ctx: Ctx)
    requires !ctx.forcing
    ensures Flow(Early, map[], ctx) == Flows(map[], []) && Flow(Seq([Early, Enter]), map[], ctx) == Flows(Held, [])
  {
    assert Merge([map[], map[]]) == map[];
    assert Flow(Skipped, map[], ctx) == Flows(map[], []);
    assert Flow(Enter, map[], ctx) == Flows(Held, []);
    FlowPair(Early, Enter, map[], ctx);
  }

  lemma EarlyLands(ctx: Ctx)
    requires !ctx.forcing
    ensures Landable(Seq([Early, Enter]), map[], ctx)
  {
    EarlyFlow(ctx);
    assert Landable(Early, map[], ctx) by { UnforcedLands(Early, map[], ctx); }
    assert Landable(Enter, map[], ctx);
    PairLands(Early, Enter, map[], ctx);
  }

  lemma PairLands(a: Stmt, b: Stmt, st: State, ctx: Ctx)
    requires Landable(a, st, ctx) && (Flow(a, st, ctx).Flows? ==> Landable(b, Flow(a, st, ctx).st, ctx))
    ensures Landable(Seq([a, b]), st, ctx)
  {
    hide Flow;
    assert [a, b][1..] == [b] && [b][1..] == [];
    if Flow(a, st, ctx).Flows? { assert LandableSeq([b], Flow(a, st, ctx).st, ctx); }
    assert LandableSeq([a, b], st, ctx);
  }

  lemma MissedRunRead()
    ensures Run(Y, map[], [], {X}) == Result([Seen], Falls(map[]), [])
  {
    assert Events([Read(X, P)], map[]) == [Seen] + Events([Read(X, P)][1..], map[]);
  }

  // ---- single steps of the walker's loops ---------------------------------------------------------

  lemma EmptyRecs(st: State, m: Table)
    ensures ExprRecs([], st) == []
    ensures RecordAll(m, []) == Some(m)
    ensures forall recs: seq<Rec> :: recs + [] == recs
  {}

  /** `recs` are the records of the first `i` parts. */
  ghost predicate Upto(e: Expr, i: nat, st: State, recs: seq<Rec>)
    requires i <= |e|
  {
    recs + ExprRecs(e[i..], st) == ExprRecs(e, st)
  }

  /** One more part of an expression. */
  lemma PartStep(e: Expr, i: nat, st: State, ctx: Ctx, pinned: bool, before: Table, now: Table, recs: seq<Rec>)
    requires i < |e| && Upto(e, i, st, recs)
    ensures Upto(e, i + 1, st, recs + PartRecs(e[i], st))
    ensures !PartOk(e[i], st, ctx, pinned) ==> !ReadsOk(e, st, ctx, pinned)
    ensures match e[i]
            case Read(n, _) => PartOk(e[i], st, ctx, pinned) == (n in st ==> !pinned && !ctx.inTask && st[n] != Ambiguous)
            case Func(names) => PartOk(e[i], st, ctx, pinned) == !exists n :: n in names && n in st
    ensures if e[i].Read? && e[i].reg in st
            then PartRecs(e[i], st) == [Rec(e[i].reg, e[i].pos, st[e[i].reg])]
            else PartRecs(e[i], st) == [] && recs + PartRecs(e[i], st) == recs
    ensures RecordAll(before, recs) == Some(now) && e[i].Read? && e[i].reg in st ==>
              var x := Record(now, Rec(e[i].reg, e[i].pos, st[e[i].reg]));
              && RecordAll(before, recs + PartRecs(e[i], st)) == x
              && (x.None? ==> RecordAll(before, ExprRecs(e, st)).None?)
  {
    var p, rest := e[i], ExprRecs(e[i + 1..], st);
    assert e[i..][1..] == e[i + 1..] && p in e;
    assert recs + (PartRecs(p, st) + rest) == recs + PartRecs(p, st) + rest;
    assert recs + [] == recs;
    if RecordAll(before, recs) == Some(now) && p.Read? && p.reg in st {
      RecordAllJoin(before, recs, PartRecs(p, st));
      RecordAllJoin(before, recs + PartRecs(p, st), rest);
      RecordOne(now, Rec(p.reg, p.pos, st[p.reg]), rest);
    }
  }

  lemma ListStart(ss: seq<Stmt>, st: State, ctx: Ctx, m: Table)
    ensures FlowSeq(ss, st, ctx) == Then([], FlowSeq(ss[0..], st, ctx))
    ensures RecordAll(m, []) == Some(m)
  {
    assert ss[0..] == ss;
    if FlowSeq(ss, st, ctx).Flows? { assert [] + FlowSeq(ss, st, ctx).recs == FlowSeq(ss, st, ctx).recs; }
  }

  lemma ListEnd(ss: seq<Stmt>, st: State, ctx: Ctx, recs: seq<Rec>)
    ensures Then(recs, FlowSeq(ss[|ss|..], st, ctx)) == Flows(st, recs)
  {
    assert recs + [] == recs;
  }

  /** One more statement of a list. */
  lemma ListStep(ss: seq<Stmt>, i: nat, cur: State, ctx: Ctx, recs: seq<Rec>, before: Table, now: Table)
    requires i < |ss|
    ensures var x, all := Flow(ss[i], cur, ctx), Then(recs, FlowSeq(ss[i..], cur, ctx));
            && (!x.Flows? ==> !all.Flows?)
            && (x.Flows? ==> all == Then(recs + x.recs, FlowSeq(ss[i + 1..], x.st, ctx)))
            && (x.Flows? && RecordAll(before, recs) == Some(now) ==>
                  && RecordAll(before, recs + x.recs) == RecordAll(now, x.recs)
                  && (RecordAll(now, x.recs).None? && all.Flows? ==> RecordAll(before, all.recs).None?))
  {
    var x := Flow(ss[i], cur, ctx);
    assert ss[i..][1..] == ss[i + 1..] && ss[i..][0] == ss[i];
    if x.Flows? {
      var rest := FlowSeq(ss[i + 1..], x.st, ctx);
      RecordAllJoin(before, recs, x.recs);
      if rest.Flows? {
        assert recs + (x.recs + rest.recs) == recs + x.recs + rest.recs;
        RecordAllJoin(before, recs + x.recs, rest.recs);
      }
    }
  }

  lemma IterateStep(b: Stmt, st: State, cur: State, ctx: Ctx, n: nat)
    ensures var x, it := Flow(b, cur, ctx), Iterate(b, st, cur, ctx, n);
            && (!x.Flows? ==> it == x)
            && (x.Flows? && Merge([st, x.st]) == cur ==> it == Flows(cur, x.recs))
            && (x.Flows? && Merge([st, x.st]) != cur && n > 0 ==> it == Iterate(b, st, Merge([st, x.st]), ctx, n - 1))
  {
    hide Flow, Merge;
  }

  /** The outcomes of the composite statements, spelled out. */
  lemma Unfold(s: Stmt, st: State, ctx: Ctx)
    ensures s.Loop? ==>
      var fix := Iterate(s.body, st, st, ctx, Bound(s.body, st));
      Flow(s, st, ctx) ==
        (if !fix.Flows? then fix else if !ReadsOk(s.header, fix.st, ctx, false) then Refused
         else Flows(fix.st, ExprRecs(s.header, fix.st) + fix.recs))
    ensures s.Call? ==>
      Flow(s, st, ctx) ==
        (if !ReadsOk(s.args, st, ctx, false) then Refused
         else Then(ExprRecs(s.args, st), Flow(s.task, st, ctx.(inTask := true, forcing := ctx.forcing || Forces(s.task)))))
    ensures s.If? && ReadsOk(s.cond, st, ctx, false) && Flow(s.thn, st, ctx).Flows? && Flow(s.els, st, ctx).Flows? ==>
      Flow(s, st, ctx) == Flows(Merge([Flow(s.thn, st, ctx).st, Flow(s.els, st, ctx).st]),
                                ExprRecs(s.cond, st) + Flow(s.thn, st, ctx).recs + Flow(s.els, st, ctx).recs)
    ensures s.If? && !(ReadsOk(s.cond, st, ctx, false) && Flow(s.thn, st, ctx).Flows? && Flow(s.els, st, ctx).Flows?) ==>
      !Flow(s, st, ctx).Flows?
  {}

  // ---- the walker ----------------------------------------------------------------------------------------

  /** What a walk of something with outcome `out` returns and leaves in the table. */
  predicate Walked(out: Out, r: Option<State>, dry: bool, before: Table, after: Table) {
    && (r.Some? <==> out.Flows? && (dry || RecordAll(before, out.recs).Some?))
    && (r.Some? ==> r.value == out.st)
    && (r.Some? && !dry ==> RecordAll(before, out.recs) == Some(after))
    && (dry ==> after == before)
  }

  class Walker {
    const regs: set<Reg>
    var stale: Table
    var dry: bool
    var forcing: bool

    constructor (regs: set<Reg>)
      ensures this.regs == regs && stale == map[] && !dry && !forcing
    {
      this.regs := regs;
      stale, dry, forcing := map[], false, false;
    }

    function Here(inTask: bool): Ctx
      reads this`forcing
    {
      Ctx(regs, inTask, forcing)
    }

    /** The end of `stale_read`: one read that may be substituted. */
    method StaleRead(n: Reg, pos: Span, active: Abs) returns (ok: bool)
      modifies this`stale
      ensures ok <==> dry || Record(old(stale), Rec(n, pos, active)).Some?
      ensures ok && !dry ==> Record(old(stale), Rec(n, pos, active)) == Some(stale)
      ensures dry ==> stale == old(stale)
    {
      if dry { return true; }
      var was := if Key(n, pos) in stale then stale[Key(n, pos)] else active;
      if was == Fresh || active == Fresh {
        stale := stale[Key(n, pos) := Fresh];
      } else if was != active {
        return false;
      } else {
        stale := stale[Key(n, pos) := active];
      }
      return true;
    }

    /** `stale` and `stale_read`: false is a refusal. */
    method Stale(e: Expr, st: State, inTask: bool, pinned: bool) returns (ok: bool)
      modifies this`stale
      ensures ok <==> ReadsOk(e, st, Here(inTask), pinned) && (dry || RecordAll(old(stale), ExprRecs(e, st)).Some?)
      ensures ok && !dry ==> RecordAll(old(stale), ExprRecs(e, st)) == Some(stale)
      ensures dry ==> stale == old(stale)
    {
      hide Record, RecordAll, PartRecs, PartOk;
      ghost var recs := [];
      ghost var ctx := Here(inTask);
      EmptyRecs(st, stale);
      assert e[0..] == e;
      ok := true;
      for i := 0 to |e|
        invariant ok
        invariant forall p | p in e[..i] :: PartOk(p, st, ctx, pinned)
        invariant Upto(e, i, st, recs)
        invariant if dry then stale == old(stale) else RecordAll(old(stale), recs) == Some(stale)
      {
        PartStep(e, i, st, ctx, pinned, old(stale), stale, recs);
        match e[i] {
        case Read(n, pos) =>
          if n in st {
            if pinned || inTask || st[n] == Ambiguous { return false; }
            var fine := StaleRead(n, pos, st[n]);
            if !fine { return false; }
          }
        case Func(names) =>
          if exists n :: n in names && n in st { return false; }
        }
        recs := recs + PartRecs(e[i], st);
        assert e[..i + 1] == e[..i] + [e[i]];
      }
      assert e[..|e|] == e && e[|e|..] == [];
    }

    method Track(s: Stmt, st: State, inTask: bool) returns (r: Option<State>)
      modifies this
      ensures dry == old(dry) && forcing == old(forcing)
      ensures Walked(Flow(s, st, Here(inTask)), r, dry, old(stale), stale)
      decreases s, 0
    {
      hide FlowSeq, FlowItems, Iterate, Forces, Merge, AfterWrite, Blur, Bound, ReadsOk;
      match s
      case Seq(ss) => r := TrackList(ss, st, inTask);
      case Timed(e, b) =>
        NoRecsPinned(e, st, Here(inTask));
        var ok := Stale(e, st, inTask, true);
        if !ok { return None; }
        r := Track(b, map[], inTask);
      case Wait(e, b) =>
        NoRecsPinned(e, st, Here(inTask));
        var ok := Stale(e, st, inTask, true);
        if !ok { return None; }
        r := Track(b, Blur(st), inTask);
      case Force(n, e, at) =>
        NoRecsPinned(e, st, Here(inTask));
        var ok := Stale(e, st, inTask, true);
        if !ok { return None; }
        r := Some(st[n := At(at)]);
      case Deassign(n) => r := Some(st[n := Released]);
      case If(e, a, b) => r := TrackIf(e, a, b, st, inTask);
      case Case(e, items, d) => r := TrackCase(e, items, d, st, inTask);
      case Write(ts, e) =>
        var ok := Stale(e, st, inTask, false);
        if !ok { return None; }
        r := Some(AfterWrite(st, ts * regs));
      case DelayedWrite(_, e) =>
        var ok := Stale(e, st, inTask, false);
        if !ok { return None; }
        r := Some(map[]);
      case Eval(e) =>
        var ok := Stale(e, st, inTask, false);
        if !ok { return None; }
        r := Some(st);
      case Call(e, t) => r := TrackCall(e, t, st, inTask);
      case Loop(e, b) => r := TrackLoop(e, b, st, inTask);
      case Named(_, b) => r := Track(b, st, inTask);
      case Jump(_, refused) => r := if st != map[] || forcing || refused then None else Some(st);
      case Skip => r := Some(st);
    }

    method TrackList(ss: seq<Stmt>, st: State, inTask: bool) returns (r: Option<State>)
      modifies this
      ensures dry == old(dry) && forcing == old(forcing)
      ensures Walked(FlowSeq(ss, st, Here(inTask)), r, dry, old(stale), stale)
      decreases ss, 0
    {
      hide Flow, FlowSeq, RecordAll;
      var cur := st;
      ghost var recs, ctx := [], Here(inTask);
      ghost var all := FlowSeq(ss, st, ctx);
      ListStart(ss, st, ctx, stale);
      for i := 0 to |ss|
        invariant dry == old(dry) && Here(inTask) == ctx && forcing == old(forcing)
        invariant all == Then(recs, FlowSeq(ss[i..], cur, ctx))
        invariant if dry then stale == old(stale) else RecordAll(old(stale), recs) == Some(stale)
      {
        assert ss[i] in ss;
        ghost var out := Flow(ss[i], cur, ctx);
        ListStep(ss, i, cur, ctx, recs, old(stale), stale);
        var x := Track(ss[i], cur, inTask);
        if x.None? { return None; }
        cur := x.value;
        recs := recs + out.recs;
      }
      ListEnd(ss, cur, ctx, recs);
      r := Some(cur);
    }

    method TrackIf(e: Expr, a: Stmt, b: Stmt, st: State, inTask: bool) returns (r: Option<State>)
      modifies this
      ensures dry == old(dry) && forcing == old(forcing)
      ensures Walked(Flow(If(e, a, b), st, Here(inTask)), r, dry, old(stale), stale)
      decreases If(e, a, b), -1
    {
      hide Flow, Merge, ReadsOk, ExprRecs, RecordAll;
      Unfold(If(e, a, b), st, Here(inTask));
      ghost var es, x, y := ExprRecs(e, st), Flow(a, st, Here(inTask)), Flow(b, st, Here(inTask));
      if x.Flows? && y.Flows? {
        RecordAllJoin(old(stale), es + x.recs, y.recs);
        RecordAllJoin(old(stale), es, x.recs);
      }
      var ok := Stale(e, st, inTask, false);
      if !ok { return None; }
      var u := Track(a, st, inTask);
      if u.None? { return None; }
      var v := Track(b, st, inTask);
      if v.None? { return None; }
      r := Some(Merge([u.value, v.value]));
    }

    method TrackCall(e: Expr, t: Stmt, st: State, inTask: bool) returns (r: Option<State>)
      modifies this
      ensures dry == old(dry) && forcing == old(forcing)
      ensures Walked(Flow(Call(e, t), st, Here(inTask)), r, dry, old(stale), stale)
      decreases Call(e, t), -1
    {
      hide Flow, Forces, ReadsOk, ExprRecs, RecordAll;
      Unfold(Call(e, t), st, Here(inTask));
      ghost var ctx := Here(inTask).(inTask := true, forcing := forcing || Forces(t));
      ghost var out := Flow(t, st, ctx);
      if out.Flows? { RecordAllJoin(old(stale), ExprRecs(e, st), out.recs); }
      var ok := Stale(e, st, inTask, false);
      if !ok { return None; }
      var saved := forcing;
      forcing := forcing || Forces(t);
      assert Here(true) == ctx;
      r := Track(t, st, true);
      forcing := saved;
    }

    method TrackCase(e: Expr, items: seq<Item>, d: Stmt, st: State, inTask: bool) returns (r: Option<State>)
      modifies this
      ensures dry == old(dry) && forcing == old(forcing)
      ensures Walked(Flow(Case(e, items, d), st, Here(inTask)), r, dry, old(stale), stale)
      decreases Case(e, items, d), -1
    {
      hide Merge, FlowItems, Labels, ReadsOk, ExprRecs, RecordAll;
      ghost var es, xs, y := ExprRecs(e + Labels(items), st), FlowItems(items, st, Here(inTask)), Flow(d, st, Here(inTask));
      if xs.Paths? && y.Flows? {
        RecordAllJoin(old(stale), es + xs.recs, y.recs);
        RecordAllJoin(old(stale), es, xs.recs);
      }
      var ok := Stale(e + Labels(items), st, inTask, false);
      if !ok { return None; }
      var outs := TrackItems(items, st, inTask);
      if outs.None? { return None; }
      var v := Track(d, st, inTask);
      if v.None? { return None; }
      r := Some(Merge(outs.value + [v.value]));
    }

    /** The outcomes of the items of a case, each from the same state. */
    method TrackItems(items: seq<Item>, st: State, inTask: bool) returns (r: Option<seq<State>>)
      modifies this
      ensures dry == old(dry) && forcing == old(forcing)
      ensures var xs := FlowItems(items, st, Here(inTask));
              && (r.Some? <==> xs.Paths? && (dry || RecordAll(old(stale), xs.recs).Some?))
              && (r.Some? ==> r.value == xs.outs)
              && (r.Some? && !dry ==> RecordAll(old(stale), xs.recs) == Some(stale))
      ensures dry ==> stale == old(stale)
      decreases items, 0
    {
      hide Flow;
      if items == [] { return Some([]); }
      ghost var x, rest := Flow(items[0].body, st, Here(inTask)), FlowItems(items[1..], st, Here(inTask));
      if x.Flows? && rest.Paths? { RecordAllJoin(old(stale), x.recs, rest.recs); }
      var u := Track(items[0].body, st, inTask);
      if u.None? { return None; }
      var us := TrackItems(items[1..], st, inTask);
      if us.None? { return None; }
      r := Some([u.value] + us.value);
    }

    /** The fixpoint loop shared by loops and always bodies: dry walks of the body until its
        state reproduces itself. */
    method Fixpoint(b: Stmt, st: State, inTask: bool) returns (r: Option<State>)
      modifies this
      ensures dry == old(dry) && forcing == old(forcing) && stale == old(stale)
      ensures var f := Iterate(b, st, st, Here(inTask), Bound(b, st));
              (r.Some? <==> f.Flows?) && (r.Some? ==> r.value == f.st)
      decreases b, 1
    {
      hide Flow, Iterate, Merge, Rank, Bound, Touched, Ascending, RecordAll;
      var saved := dry;
      dry := true;
      var cur := st;
      ghost var n: nat := Bound(b, st);
      ghost var ctx := Here(inTask);
      FirstStepAscends(b, st, ctx);
      while true
        invariant dry && forcing == old(forcing) && stale == old(stale) && Here(inTask) == ctx
        invariant Iterate(b, st, cur, ctx, n) == Iterate(b, st, st, ctx, Bound(b, st))
        invariant Ascending(b, st, cur, ctx) && cur.Keys <= st.Keys + Touched(b) && n + Rank(cur) >= Bound(b, st)
        decreases n
      {
        IterateStep(b, st, cur, ctx, n);
        var x := Track(b, cur, inTask);
        if x.None? {
          dry := saved;
          return None;
        }
        var nxt := Merge([st, x.value]);
        if nxt == cur { break; }
        StepClimbs(b, st, cur, ctx);
        NextStepAscends(b, st, cur, ctx);
        cur := nxt;
        n := n - 1;
      }
      dry := saved;
      r := Some(cur);
    }

    method TrackLoop(e: Expr, b: Stmt, st: State, inTask: bool) returns (r: Option<State>)
      modifies this
      ensures dry == old(dry) && forcing == old(forcing)
      ensures Walked(Flow(Loop(e, b), st, Here(inTask)), r, dry, old(stale), stale)
      decreases Loop(e, b), -1
    {
      hide Flow, Merge, Bound, ReadsOk, ExprRecs, RecordAll;
      Unfold(Loop(e, b), st, Here(inTask));
      ghost var fix := Iterate(b, st, st, Here(inTask), Bound(b, st));
      if fix.Flows? {
        IterateFixed(b, st, st, Here(inTask), Bound(b, st));
        RecordAllJoin(old(stale), ExprRecs(e, fix.st), fix.recs);
      }
      var cur := Fixpoint(b, st, inTask);
      if cur.None? { return None; }
      var ok := Stale(e, cur.value, inTask, false);
      if !ok { return None; }
      var x := Track(b, cur.value, inTask);
      if x.None? { return None; }
      r := Some(cur.value);
    }

    /** `block`: analyses one procedural block; `loops`: an always body with no timing control of
        its own. On success every execution of the block is treated correctly. */
    method Block(s: Stmt, loops: bool) returns (ok: bool)
      requires !dry
      modifies this
      ensures !dry
      ensures ok <==> BlockFlow(s, loops, regs).Flows? && RecordAll(old(stale), BlockFlow(s, loops, regs).recs).Some?
      ensures ok ==> RecordAll(old(stale), BlockFlow(s, loops, regs).recs) == Some(stale)
      ensures ok && Fitting(s, loops, regs, old(stale)) ==>
                forall o, e | e in RunBlock(s, loops, o, regs).events :: Correct(stale, e)
    {
      hide Flow, Merge, Bound, Touched, RecordAll, Distinct, AllPos, DelaysPlain, ForcesDeep, JumpsRefused;
      forcing := Forces(s);
      assert Here(false) == BlockCtx(s, regs);
      var start := map[];
      if loops {
        ghost var f := BlockFlow(s, loops, regs);
        if f.Flows? { IterateFixed(s, map[], map[], BlockCtx(s, regs), Bound(s, map[])); }
        var x := Fixpoint(s, map[], false);
        if x.None? { return false; }
        start := x.value;
      }
      var x := Track(s, start, false);
      if x.None? { return false; }
      ok := true;
      if Fitting(s, loops, regs, old(stale)) {
        forall o, e | e in RunBlock(s, loops, o, regs).events
          ensures Correct(stale, e)
        {
          BlockSound(s, loops, regs, old(stale), o);
        }
      }
    }
  }

  lemma NoRecsPinned(e: Expr, st: State, ctx: Ctx)
    ensures ReadsOk(e, st, ctx, true) ==> ExprRecs(e, st) == []
  {
    if ReadsOk(e, st, ctx, true) { NoRecs(e, st, ctx, true); }
  }
}
