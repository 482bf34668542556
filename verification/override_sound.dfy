/** Soundness of the override analysis over every execution. */
module OverrideSound {
  import opened OverrideState
  import opened OverrideFlow
  import opened OverrideRun

  // ---- expressions -----------------------------------------------------------------------------

  predicate PartEvent(p: Part, ev: Event, c: Conc) {
    match p
    case Read(n, pos) => ev == Event(n, Some(pos), Look(c, n))
    case Func(names) => ev.pos == None && ev.reg in names && ev.pend == Look(c, ev.reg)
  }

  lemma {:induction false} EventsAre(e: Expr, c: Conc)
    ensures forall ev | ev in Events(e, c) :: exists p :: p in e && PartEvent(p, ev, c)
  {
    if e != [] {
      EventsAre(e[1..], c);
      forall ev | ev in Events(e, c)
        ensures exists p :: p in e && PartEvent(p, ev, c)
      {
        if ev in Events(e[1..], c) {
          var p :| p in e[1..] && PartEvent(p, ev, c);
          assert p in e;
        } else {
          assert e[0] in e && PartEvent(e[0], ev, c);
        }
      }
    }
  }

  lemma {:induction false} RecsAre(e: Expr, st: State)
    ensures forall r | r in ExprRecs(e, st) :: Read(r.reg, r.pos) in e && r.reg in st && r.active == st[r.reg]
    ensures forall p | p in e && p.Read? && p.reg in st :: Rec(p.reg, p.pos, st[p.reg]) in ExprRecs(e, st)
  {
    if e != [] {
      RecsAre(e[1..], st);
      assert e == [e[0]] + e[1..];
    }
  }

  /** Reads checked by `stale` are recorded exactly, or have nothing pending. */
  lemma ExprJust(e: Expr, st: State, c: Conc, ctx: Ctx)
    requires ReadsOk(e, st, ctx, false) && Covers(st, c) && NoRepeat(e)
    ensures AllJust(ExprRecs(e, st), Events(e, c))
  {
    EventsAre(e, c);
    RecsAre(e, st);
    forall ev | ev in Events(e, c)
      ensures Just(ExprRecs(e, st), ev)
    {
      var p :| p in e && PartEvent(p, ev, c);
      assert Admits(Get(st, ev.reg), Look(c, ev.reg));
      assert PartOk(p, st, ctx, false);
      if p.Read? && p.reg in st {
        assert SameRead(Rec(p.reg, p.pos, st[p.reg]), ev);
      }
    }
  }

  lemma {:induction false} NoRecs(e: Expr, st: State, ctx: Ctx, pinned: bool)
    requires ReadsOk(e, st, ctx, pinned) && (pinned || ctx.inTask)
    ensures ExprRecs(e, st) == []
  {
    if e != [] {
      assert PartOk(e[0], st, ctx, pinned);
      NoRecs(e[1..], st, ctx, pinned);
    }
  }

  /** Reads that may not be substituted have nothing pending and leave no record. */
  lemma PinnedClear(e: Expr, st: State, c: Conc, ctx: Ctx, pinned: bool)
    requires ReadsOk(e, st, ctx, pinned) && Covers(st, c)
    requires pinned || ctx.inTask
    ensures ExprRecs(e, st) == []
    ensures forall ev | ev in Events(e, c) :: Clear(ev.pend)
  {
    EventsAre(e, c);
    NoRecs(e, st, ctx, pinned);
    forall ev | ev in Events(e, c)
      ensures Clear(ev.pend)
    {
      var p :| p in e && PartEvent(p, ev, c);
      assert PartOk(p, st, ctx, pinned);
      assert Admits(Get(st, ev.reg), Look(c, ev.reg));
    }
  }

  lemma {:induction false} EventsJoin(a: Expr, b: Expr, c: Conc)
    ensures Events(a + b, c) == Events(a, c) + Events(b, c)
  {
    if a == [] {
      assert a + b == b;
    } else {
      assert (a + b)[1..] == a[1..] + b;
      EventsJoin(a[1..], b, c);
    }
  }

  lemma {:induction false} LabelsSplit(items: seq<Item>, k: nat)
    requires k <= |items|
    ensures Labels(items) == Labels(items[..k]) + Labels(items[k..])
  {
    if k == 0 {
      assert items[k..] == items;
    } else {
      assert items[..k][1..] == items[1..][..k - 1];
      LabelsSplit(items[1..], k - 1);
      assert items[1..][k - 1..] == items[k..];
    }
  }

  // ---- positions -----------------------------------------------------------------------------------

  ghost predicate RecsIn(recs: seq<Rec>, at: set<Span>) { forall r | r in recs :: r.pos in at }

  ghost predicate EventsIn(es: seq<Event>, at: set<Span>) { forall e | e in es && e.pos.Some? :: e.pos.value in at }

  lemma {:induction false} RecPositions(s: Stmt, st: State, ctx: Ctx)
    requires Flow(s, st, ctx).Flows?
    ensures RecsIn(Flow(s, st, ctx).recs, RecPos(s))
    ensures ctx.inTask ==> Flow(s, st, ctx).recs == []
    decreases s, 0
  {
    hide Merge, FlowSeq, FlowItems, Iterate, Forces, Bound, ReadsOk, ExprRecs, Labels, Blur, AfterWrite;
    match s
    case Seq(ss) => RecPositionsSeq(ss, st, ctx);
    case Timed(e, b) => RecPositions(b, map[], ctx);
    case Wait(e, b) => RecPositions(b, Blur(st), ctx);
    case Force(_, _, _) =>
    case Deassign(_) =>
    case If(e, a, b) =>
      ExprRecPositions(e, st, ctx);
      RecPositions(a, st, ctx);
      RecPositions(b, st, ctx);
    case Case(e, items, d) =>
      ExprRecPositions(e + Labels(items), st, ctx);
      RecPositionsItems(items, st, ctx);
      RecPositions(d, st, ctx);
    case Write(_, e) => ExprRecPositions(e, st, ctx);
    case DelayedWrite(_, e) => ExprRecPositions(e, st, ctx);
    case Eval(e) => ExprRecPositions(e, st, ctx);
    case Call(e, t) =>
      ExprRecPositions(e, st, ctx);
      RecPositions(t, st, ctx.(inTask := true, forcing := ctx.forcing || Forces(t)));
    case Loop(e, b) =>
      var f := Iterate(b, st, st, ctx, Bound(b, st));
      IterateFixed(b, st, st, ctx, Bound(b, st));
      ExprRecPositions(e, f.st, ctx);
      RecPositions(b, f.st, ctx);
    case Named(_, b) => RecPositions(b, st, ctx);
    case Jump(_, _) =>
    case Skip =>
  }

  lemma ExprRecPositions(e: Expr, st: State, ctx: Ctx)
    requires ReadsOk(e, st, ctx, false)
    ensures RecsIn(ExprRecs(e, st), ExprPos(e))
    ensures ctx.inTask ==> ExprRecs(e, st) == []
  {
    RecsAre(e, st);
    forall r | r in ExprRecs(e, st)
      ensures r.pos in ExprPos(e)
    {
      assert Read(r.reg, r.pos).pos in ExprPos(e);
    }
    if ctx.inTask { NoRecs(e, st, ctx, false); }
  }

  lemma {:induction false} RecPositionsSeq(ss: seq<Stmt>, st: State, ctx: Ctx)
    requires FlowSeq(ss, st, ctx).Flows?
    ensures RecsIn(FlowSeq(ss, st, ctx).recs, RecPos(Seq(ss)))
    ensures ctx.inTask ==> FlowSeq(ss, st, ctx).recs == []
    decreases ss, 0
  {
    if ss != [] {
      assert ss[0] in ss && forall x | x in ss[1..] :: x in ss;
      RecPositions(ss[0], st, ctx);
      RecPositionsSeq(ss[1..], Flow(ss[0], st, ctx).st, ctx);
    }
  }

  function ItemPos(items: seq<Item>): set<Span> { set x, p | x in items && p in RecPos(x.body) :: p }

  lemma {:induction false} RecPositionsItems(items: seq<Item>, st: State, ctx: Ctx)
    requires FlowItems(items, st, ctx).Paths?
    ensures RecsIn(FlowItems(items, st, ctx).recs, ItemPos(items))
    ensures ctx.inTask ==> FlowItems(items, st, ctx).recs == []
    decreases items, 0
  {
    if items != [] {
      assert items[0] in items && forall x | x in items[1..] :: x in items;
      RecPositions(items[0].body, st, ctx);
      RecPositionsItems(items[1..], st, ctx);
    }
  }

  lemma ExprEventPositions(e: Expr, c: Conc)
    ensures EventsIn(Events(e, c), ExprPos(e))
  {
    EventsAre(e, c);
  }

  lemma PrefixPositions(a: Expr, b: Expr)
    ensures ExprPos(a) <= ExprPos(a + b)
  {
    assert forall p | p in a :: p in a + b;
  }

  lemma LabelPositions(e: Expr, items: seq<Item>, k: nat)
    requires k <= |items|
    ensures ExprPos(e + Labels(items[..k])) <= ExprPos(e + Labels(items))
  {
    hide Labels, ExprPos;
    LabelsSplit(items, k);
    assert e + Labels(items) == e + Labels(items[..k]) + Labels(items[k..]);
    PrefixPositions(e + Labels(items[..k]), Labels(items[k..]));
  }

  lemma CaseEventPositions(s: Stmt, c: Conc, o: seq<nat>)
    requires s.Case?
    ensures o == [] ==> EventsIn(Events(s.sel, c), AllPos(s))
    ensures o != [] && o[0] < |s.items| ==>
      && EventsIn(Events(s.sel + Labels(s.items[..o[0] + 1]), c), AllPos(s))
      && AllPos(s.items[o[0]].body) <= AllPos(s)
    ensures o != [] && o[0] >= |s.items| ==> EventsIn(Events(s.sel + Labels(s.items), c), AllPos(s))
  {
    PrefixPositions(s.sel, Labels(s.items));
    ExprEventPositions(s.sel, c);
    ExprEventPositions(s.sel + Labels(s.items), c);
    if o != [] && o[0] < |s.items| {
      assert s.items[o[0]] in s.items;
      ExprEventPositions(s.sel + Labels(s.items[..o[0] + 1]), c);
      LabelPositions(s.sel, s.items, o[0] + 1);
    }
  }

  lemma {:induction false} EventPositions(s: Stmt, c: Conc, o: seq<nat>, regs: set<Reg>)
    ensures EventsIn(Run(s, c, o, regs).events, AllPos(s))
    decreases |o|, s, 1
  {
    hide RunSeq, RunLoop, ExprPos, Labels, Events, Look, Written, Land, EventsIn;
    match s
    case Seq(ss) => EventPositionsSeq(ss, c, o, regs);
    case Timed(e, b) =>
      ExprEventPositions(e, c);
      EventPositions(b, map[], o, regs);
      BothIn(Events(e, c), Run(b, map[], o, regs).events, ExprPos(e), AllPos(b));
    case Wait(e, b) =>
      ExprEventPositions(e, c);
      WiderIn(Events(e, c), ExprPos(e), AllPos(b));
      if o != [] {
        var d := if o[0] == 0 then c else map[];
        EventPositions(b, d, o[1..], regs);
        BothIn(Events(e, c), Run(b, d, o[1..], regs).events, ExprPos(e), AllPos(b));
      }
    case If(e, x, y) =>
      ExprEventPositions(e, c);
      WiderIn(Events(e, c), ExprPos(e), AllPos(x) + AllPos(y));
      assert AllPos(s) == ExprPos(e) + (AllPos(x) + AllPos(y));
      if o != [] {
        var b := if o[0] == 0 then x else y;
        EventPositions(b, c, o[1..], regs);
        var es := Run(b, c, o[1..], regs).events;
        WiderIn(es, AllPos(b), AllPos(x) + AllPos(y));
        assert AllPos(b) + (AllPos(x) + AllPos(y)) == AllPos(x) + AllPos(y);
        BothIn(Events(e, c), es, ExprPos(e), AllPos(x) + AllPos(y));
      }
    case Case(e, items, d) => CaseEventsIn(s, c, o, regs);
    case Call(e, t) =>
      ExprEventPositions(e, c);
      EventPositions(t, c, o, regs);
      BothIn(Events(e, c), Run(t, c, o, regs).events, ExprPos(e), AllPos(t));
    case Loop(e, b) => EventPositionsLoop(e, b, c, o, regs);
    case Force(_, e, _) => ExprEventPositions(e, c);
    case Write(_, e) => ExprEventPositions(e, c);
    case DelayedWrite(_, e) => ExprEventPositions(e, c);
    case Eval(e) => ExprEventPositions(e, c);
    case Named(l, b) =>
      EventPositions(b, c, o, regs);
      LandEvents(Run(b, c, o, regs), l);
    case Jump(Around(_), _) => NoEventsIn(AllPos(s));
    case Jump(Elsewhere, _) => NoEventsIn(AllPos(s));
    case _ => NoEventsIn(AllPos(s));
  }

  lemma LandEvents(r: Result, l: Label)
    ensures Land(r, l).events == r.events
  {}

  lemma NoEventsIn(at: set<Span>)
    ensures EventsIn([], at)
  {}

  lemma BothIn(a: seq<Event>, b: seq<Event>, pa: set<Span>, pb: set<Span>)
    requires EventsIn(a, pa) && EventsIn(b, pb)
    ensures EventsIn(a + b, pa + pb)
  {}

  lemma WiderIn(a: seq<Event>, pa: set<Span>, pb: set<Span>)
    requires EventsIn(a, pa)
    ensures EventsIn(a, pa + pb)
  {}

  lemma {:induction false} CaseEventsIn(s: Stmt, c: Conc, o: seq<nat>, regs: set<Reg>)
    requires s.Case?
    ensures EventsIn(Run(s, c, o, regs).events, AllPos(s))
    decreases |o|, s, 0
  {
    hide RunSeq, RunLoop, ExprPos, Labels, Events, Look, Written, Land;
    CaseEventPositions(s, c, o);
    if o != [] {
      var b := if o[0] < |s.items| then s.items[o[0]].body else s.dflt;
      assert o[0] < |s.items| ==> s.items[o[0]] in s.items;
      EventPositions(b, c, o[1..], regs);
    }
  }

  lemma {:induction false} EventPositionsSeq(ss: seq<Stmt>, c: Conc, o: seq<nat>, regs: set<Reg>)
    ensures EventsIn(RunSeq(ss, c, o, regs).events, AllPos(Seq(ss)))
    decreases |o|, ss, 0
  {
    if ss != [] {
      assert ss[0] in ss && forall x | x in ss[1..] :: x in ss;
      EventPositions(ss[0], c, o, regs);
      var x := Run(ss[0], c, o, regs);
      if x.halt.Falls? { EventPositionsSeq(ss[1..], x.halt.c, x.rest, regs); }
    }
  }

  lemma {:induction false} EventPositionsLoop(e: Expr, b: Stmt, c: Conc, o: seq<nat>, regs: set<Reg>)
    ensures EventsIn(RunLoop(e, b, c, o, regs).events, ExprPos(e) + AllPos(b))
    decreases |o|, b, 2
  {
    if o != [] && o[0] == 1 {
      ExprEventPositions(e, c);
      EventPositionsLoop(e, b, c, o[1..], regs);
    } else if o != [] && o[0] != 0 {
      EventPositions(b, c, o[1..], regs);
      var x := Run(b, c, o[1..], regs);
      if x.halt.Falls? { EventPositionsLoop(e, b, x.halt.c, x.rest, regs); }
    }
  }

  /** Records made elsewhere do not concern the events of a statement with other positions. */
  lemma JustAmong(recs: seq<Rec>, all: seq<Rec>, es: seq<Event>, at: set<Span>)
    requires AllJust(recs, es) && EventsIn(es, at)
    requires forall r | r in recs :: r in all
    requires forall r | r in all :: r in recs || r.pos !in at
    ensures AllJust(all, es)
  {
    forall e | e in es
      ensures Just(all, e)
    {
      assert Just(recs, e);
    }
  }

  // ---- states without exact overrides ------------------------------------------------------------

  lemma {:induction false} FlowMild(s: Stmt, st: State, ctx: Ctx)
    requires Mild(st) && !ForcesDeep(s) && Flow(s, st, ctx).Flows?
    ensures Mild(Flow(s, st, ctx).st)
    decreases s, 0
  {
    hide FlowSeq, FlowItems, Iterate, Forces, Merge, ReadsOk, ExprRecs, Labels, Bound;
    match s
    case Seq(ss) => FlowSeqMild(ss, st, ctx);
    case Timed(e, b) => FlowMild(b, map[], ctx);
    case Wait(e, b) => FlowMild(b, Blur(st), ctx);
    case If(e, a, b) =>
      FlowMild(a, st, ctx);
      FlowMild(b, st, ctx);
      MergeMild([Flow(a, st, ctx).st, Flow(b, st, ctx).st]);
    case Case(e, items, d) =>
      FlowItemsMild(items, st, ctx);
      FlowMild(d, st, ctx);
      MergeMild(FlowItems(items, st, ctx).outs + [Flow(d, st, ctx).st]);
    case Call(e, t) => FlowMild(t, st, ctx.(inTask := true, forcing := ctx.forcing || Forces(t)));
    case Loop(e, b) => IterateMild(b, st, st, ctx, Bound(b, st));
    case Named(_, b) => FlowMild(b, st, ctx);
    case _ =>
  }

  lemma MergeMild(sts: seq<State>)
    requires sts != [] && forall i :: 0 <= i < |sts| ==> Mild(sts[i])
    ensures Mild(Merge(sts))
  {}

  lemma {:induction false} FlowSeqMild(ss: seq<Stmt>, st: State, ctx: Ctx)
    requires Mild(st) && !ForcesDeep(Seq(ss)) && FlowSeq(ss, st, ctx).Flows?
    ensures Mild(FlowSeq(ss, st, ctx).st)
    decreases ss, 0
  {
    if ss != [] {
      assert ss[0] in ss && forall x | x in ss[1..] :: x in ss;
      FlowMild(ss[0], st, ctx);
      FlowSeqMild(ss[1..], Flow(ss[0], st, ctx).st, ctx);
    }
  }

  lemma {:induction false} FlowItemsMild(items: seq<Item>, st: State, ctx: Ctx)
    requires Mild(st) && (forall x | x in items :: !ForcesDeep(x.body)) && FlowItems(items, st, ctx).Paths?
    ensures forall i :: 0 <= i < |items| ==> Mild(FlowItems(items, st, ctx).outs[i])
    decreases items, 0
  {
    if items != [] {
      assert items[0] in items && forall x | x in items[1..] :: x in items;
      FlowMild(items[0].body, st, ctx);
      FlowItemsMild(items[1..], st, ctx);
    }
  }

  lemma {:induction false} IterateMild(b: Stmt, st: State, cur: State, ctx: Ctx, n: nat)
    requires Mild(st) && Mild(cur) && !ForcesDeep(b) && Iterate(b, st, cur, ctx, n).Flows?
    ensures Mild(Iterate(b, st, cur, ctx, n).st)
    decreases b, n + 1
  {
    hide Flow, Merge, Mild, ForcesDeep;
    FlowMild(b, cur, ctx);
    var nxt := Merge([st, Flow(b, cur, ctx).st]);
    MergeMild([st, Flow(b, cur, ctx).st]);
    if nxt != cur { IterateMild(b, st, nxt, ctx, n - 1); }
  }

  // ---- soundness -------------------------------------------------------------------------------------

  /** The guards of the theorem. */
  ghost predicate Fit(s: Stmt, st: State, ctx: Ctx) { DelaysPlain(s, ctx.regs) && Distinct(s) && Landable(s, st, ctx) }

  /** The same, for a statement whose own landings are still in question. */
  ghost predicate FitInside(s: Stmt, st: State, ctx: Ctx) { DelaysPlain(s, ctx.regs) && Distinct(s) && LandableInside(s, st, ctx) }

  /** What a run must satisfy for an outcome of the analysis; `ex`: how the statement can be left. */
  ghost predicate Sound(r: Result, out: Out, ex: Exits)
    requires out.Flows?
  {
    && AllJust(out.recs, r.events)
    && (r.halt.Falls? ==> ex.falls && Covers(out.st, r.halt.c))
    && (r.halt.Jumped? ==> r.halt.goal in ex.jumps && AllClear(r.halt.c))
  }

  ghost predicate AllClear(c: Conc) { forall n :: Clear(Look(c, n)) }

  /** Every execution of an accepted statement, from any state the abstract one covers: each read
      agrees with its record or has nothing pending, and the final state is covered. */
  lemma {:induction false} RunSound(s: Stmt, st: State, c: Conc, o: seq<nat>, ctx: Ctx)
    requires Flow(s, st, ctx).Flows? && Covers(st, c) && Fit(s, st, ctx)
    ensures Sound(Run(s, c, o, ctx.regs), Flow(s, st, ctx), ExitsOf(s))
    decreases |o|, s, 2
  {
    hide Merge, Iterate, FlowItems, FlowSeq, Distinct, DelaysPlain, LandableSeq, AllPos, RecPos, Touched, Just, Covers, Mild;
    match s
    case Seq(ss) => RunSeqSound(ss, st, c, o, ctx);
    case Timed(e, b) => TimedSound(s, st, c, o, ctx);
    case Wait(e, b) => WaitSound(s, st, c, o, ctx);
    case If(e, x, y) => IfSound(s, st, c, o, ctx);
    case Case(e, items, d) => CaseSound(s, st, c, o, ctx);
    case Call(e, t) => CallSound(s, st, c, o, ctx);
    case Loop(e, b) => LoopSound(s, st, c, o, ctx);
    case Named(_, _) => NamedSound(s, st, c, o, ctx);
    case _ => SimpleSound(s, st, c, o, ctx);
  }

  lemma {:induction false} NamedSound(s: Stmt, st: State, c: Conc, o: seq<nat>, ctx: Ctx)
    requires s.Named? && Flow(s, st, ctx).Flows? && Covers(st, c) && Fit(s, st, ctx)
    ensures Sound(Run(s, c, o, ctx.regs), Flow(s, st, ctx), ExitsOf(s))
    decreases |o|, s, 1
  {
    assert LandableInside(s, st, ctx);
    RunSound(s.body, st, c, o, ctx);
    var r, out := Run(s.body, c, o, ctx.regs), Flow(s, st, ctx);
    if r.halt.Jumped? && r.halt.goal == s.name { MildCovers(out.st, r.halt.c); }
  }

  /** Where no override is named exactly, a state with nothing pending is covered. */
  lemma MildCovers(st: State, c: Conc)
    requires Mild(st) && AllClear(c)
    ensures Covers(st, c)
  {
    forall n: Reg
      ensures Admits(Get(st, n), Look(c, n))
    {
      assert Clear(Look(c, n));
    }
  }

  lemma SimpleSound(s: Stmt, st: State, c: Conc, o: seq<nat>, ctx: Ctx)
    requires Flow(s, st, ctx).Flows? && Covers(st, c) && FitInside(s, st, ctx)
    requires s.Force? || s.Deassign? || s.Write? || s.DelayedWrite? || s.Eval? || s.Jump? || s.Skip?
    ensures Sound(Run(s, c, o, ctx.regs), Flow(s, st, ctx), ExitsOf(s))
  {
    var out, r := Flow(s, st, ctx), Run(s, c, o, ctx.regs);
    match s
    case Force(n, e, at) =>
      PinnedClear(e, st, c, ctx, true);
      UpdateCovers(st, c, n, At(at), Pend(Assigned(at), Look(c, n).written));
    case Deassign(n) => UpdateCovers(st, c, n, Released, Pend(Deassigned, Look(c, n).written));
    case Write(ts, e) =>
      ExprJust(e, st, c, ctx);
      WriteCovers(st, c, ts * ctx.regs);
    case DelayedWrite(ts, e) =>
      ExprJust(e, st, c, ctx);
      assert ts * ctx.regs == {};
      assert Written(map[], ts * ctx.regs) == map[];
      EmptyCovers();
    case Eval(e) => ExprJust(e, st, c, ctx);
    case Jump(_, _) => NothingPending(c);
    case Skip =>
  }

  /** `jump` refuses a jump unless the state is empty. */
  lemma NothingPending(c: Conc)
    requires Covers(map[], c)
    ensures AllClear(c)
  {
    forall n: Reg
      ensures Clear(Look(c, n))
    {
      assert Admits(Get(map[], n), Look(c, n));
    }
  }

  lemma EmptyCovers()
    ensures Covers(map[], map[])
  {}

  lemma UpdateCovers(st: State, c: Conc, n: Reg, v: Abs, p: Pend)
    requires Covers(st, c) && Admits(Known(v), p)
    ensures Covers(st[n := v], c[n := p])
  {
    var st', c' := st[n := v], c[n := p];
    forall m: Reg
      ensures Admits(Get(st', m), Look(c', m))
    {
      assert Admits(Get(st, m), Look(c, m));
    }
  }

  lemma WriteCovers(st: State, c: Conc, ts: set<Reg>)
    requires Covers(st, c)
    ensures Covers(AfterWrite(st, ts), Written(c, ts))
  {
    forall m: Reg
      ensures Admits(Get(AfterWrite(st, ts), m), Look(Written(c, ts), m))
    {
      assert Admits(Get(st, m), Look(c, m));
    }
  }

  lemma {:induction false} RunSeqSound(ss: seq<Stmt>, st: State, c: Conc, o: seq<nat>, ctx: Ctx)
    requires FlowSeq(ss, st, ctx).Flows? && Covers(st, c) && FitInside(Seq(ss), st, ctx)
    ensures Sound(RunSeq(ss, c, o, ctx.regs), FlowSeq(ss, st, ctx), ExitsSeq(ss))
    decreases |o|, ss, 0
  {
    if ss != [] {
      HeadFits(ss, st, ctx);
      HeadApart(ss);
      hide FitInside, Fit, Distinct, AllPos, RecPos, Covers, Just, RecsIn, EventsIn;
      RunSound(ss[0], st, c, o, ctx);
      var x, a := Run(ss[0], c, o, ctx.regs), Flow(ss[0], st, ctx);
      var b := FlowSeq(ss[1..], a.st, ctx);
      RecPositions(ss[0], st, ctx);
      RecPositionsSeq(ss[1..], a.st, ctx);
      EventPositions(ss[0], c, o, ctx.regs);
      TwoParts(a.recs, b.recs, RecPos(ss[0]), AllPos(ss[0]), RecPos(Seq(ss[1..])), AllPos(Seq(ss[1..])));
      JustAmong(a.recs, a.recs + b.recs, x.events, AllPos(ss[0]));
      if x.halt.Falls? {
        RunSeqSound(ss[1..], a.st, x.halt.c, x.rest, ctx);
        var y := RunSeq(ss[1..], x.halt.c, x.rest, ctx.regs);
        EventPositionsSeq(ss[1..], x.halt.c, x.rest, ctx.regs);
        JustAmong(b.recs, a.recs + b.recs, y.events, AllPos(Seq(ss[1..])));
      }
    }
  }

  lemma TwoParts(a: seq<Rec>, b: seq<Rec>, ra: set<Span>, aa: set<Span>, rb: set<Span>, ab: set<Span>)
    requires RecsIn(a, ra) && RecsIn(b, rb) && ra !! ab && rb !! aa
    ensures forall r | r in a + b :: (r in a || r.pos !in aa) && (r in b || r.pos !in ab)
  {}

  /** The guards of a sequence are those of its head and of its rest. */
  lemma HeadFits(ss: seq<Stmt>, st: State, ctx: Ctx)
    requires ss != [] && FlowSeq(ss, st, ctx).Flows? && FitInside(Seq(ss), st, ctx)
    ensures Flow(ss[0], st, ctx).Flows? && Fit(ss[0], st, ctx)
    ensures FlowSeq(ss[1..], Flow(ss[0], st, ctx).st, ctx).Flows? && FitInside(Seq(ss[1..]), Flow(ss[0], st, ctx).st, ctx)
  {
    assert ss[0] in ss && forall x | x in ss[1..] :: x in ss;
    HeadApart(ss);
    HeadLands(ss, st, ctx);
    hide Landable, LandableInside, Flow, AllPos, RecPos;
  }

  lemma HeadLands(ss: seq<Stmt>, st: State, ctx: Ctx)
    requires ss != [] && FlowSeq(ss, st, ctx).Flows? && LandableInside(Seq(ss), st, ctx)
    ensures Flow(ss[0], st, ctx).Flows? && Landable(ss[0], st, ctx)
    ensures FlowSeq(ss[1..], Flow(ss[0], st, ctx).st, ctx).Flows? && LandableInside(Seq(ss[1..]), Flow(ss[0], st, ctx).st, ctx)
  {
    hide Landable, Flow;
    assert ss[0] in ss && forall x | x in ss[1..] :: x in ss;
    assert LandableSeq(ss, st, ctx);
    assert LandableSeq(ss[1..], Flow(ss[0], st, ctx).st, ctx);
  }

  lemma HeadApart(ss: seq<Stmt>)
    requires ss != [] && Distinct(Seq(ss))
    ensures Distinct(Seq(ss[1..]))
    ensures RecPos(ss[0]) !! AllPos(Seq(ss[1..])) && RecPos(Seq(ss[1..])) !! AllPos(ss[0])
  {
    forall i, j | 0 <= i < j < |ss[1..]|
      ensures SApart(ss[1..][i], ss[1..][j])
    {
      assert SApart(ss[i + 1], ss[j + 1]);
    }
    forall x | x in ss[1..]
      ensures SApart(ss[0], x) && Distinct(x)
    {
      var i :| 0 <= i < |ss[1..]| && ss[1..][i] == x;
      assert SApart(ss[0], ss[i + 1]);
      assert x in ss;
    }
  }

  lemma {:induction false} TimedSound(s: Stmt, st: State, c: Conc, o: seq<nat>, ctx: Ctx)
    requires s.Timed? && Flow(s, st, ctx).Flows? && Covers(st, c) && FitInside(s, st, ctx)
    ensures Sound(Run(s, c, o, ctx.regs), Flow(s, st, ctx), ExitsOf(s))
    decreases |o|, s, 1
  {
    PinnedClear(s.timing, st, c, ctx, true);
    EmptyCovers();
    RunSound(s.body, map[], map[], o, ctx);
    PinnedApart(s.timing, s.body, map[], ctx, Events(s.timing, c), c);
  }

  /** Reads with nothing pending are unconcerned by the records of a statement apart from them. */
  lemma PinnedApart(e: Expr, b: Stmt, st: State, ctx: Ctx, es: seq<Event>, c: Conc)
    requires Flow(b, st, ctx).Flows? && EApart(e, b) && es == Events(e, c)
    requires forall ev | ev in es :: Clear(ev.pend)
    ensures AllJust(Flow(b, st, ctx).recs, es)
  {
    RecPositions(b, st, ctx);
    RecInAll(b);
    ExprEventPositions(e, c);
  }

  lemma {:induction false} RecInAll(s: Stmt)
    ensures RecPos(s) <= AllPos(s)
    decreases s
  {
    match s
    case Seq(ss) => forall x | x in ss { RecInAll(x); }
    case Timed(_, b) => RecInAll(b);
    case Wait(_, b) => RecInAll(b);
    case If(_, a, b) =>
      RecInAll(a);
      RecInAll(b);
    case Case(_, items, d) =>
      forall x | x in items { RecInAll(x.body); }
      RecInAll(d);
    case Loop(_, b) => RecInAll(b);
    case Named(_, b) => RecInAll(b);
    case _ =>
  }

  lemma {:induction false} WaitSound(s: Stmt, st: State, c: Conc, o: seq<nat>, ctx: Ctx)
    requires s.Wait? && Flow(s, st, ctx).Flows? && Covers(st, c) && FitInside(s, st, ctx)
    ensures Sound(Run(s, c, o, ctx.regs), Flow(s, st, ctx), ExitsOf(s))
    decreases |o|, s, 1
  {
    PinnedClear(s.cond, st, c, ctx, true);
    PinnedApart(s.cond, s.body, Blur(st), ctx, Events(s.cond, c), c);
    if o != [] {
      var c' := if o[0] == 0 then c else map[];
      forall n: Reg
        ensures Admits(Get(Blur(st), n), Look(c', n))
      {
        assert Admits(Get(st, n), Look(c, n));
      }
      RunSound(s.body, Blur(st), c', o[1..], ctx);
    }
  }

  lemma {:induction false} IfSound(s: Stmt, st: State, c: Conc, o: seq<nat>, ctx: Ctx)
    requires s.If? && Flow(s, st, ctx).Flows? && Covers(st, c) && FitInside(s, st, ctx)
    ensures Sound(Run(s, c, o, ctx.regs), Flow(s, st, ctx), ExitsOf(s))
    decreases |o|, s, 1
  {
    var out := Flow(s, st, ctx);
    var x, y := Flow(s.thn, st, ctx), Flow(s.els, st, ctx);
    ExprJust(s.cond, st, c, ctx);
    ExprEventPositions(s.cond, c);
    ExprRecPositions(s.cond, st, ctx);
    RecPositions(s.thn, st, ctx);
    RecPositions(s.els, st, ctx);
    RecInAll(s.thn);
    RecInAll(s.els);
    JustAmong(ExprRecs(s.cond, st), out.recs, Events(s.cond, c), ExprPos(s.cond));
    if o != [] {
      var b, f := if o[0] == 0 then s.thn else s.els, if o[0] == 0 then x else y;
      RunSound(b, st, c, o[1..], ctx);
      EventPositions(b, c, o[1..], ctx.regs);
      var r := Run(b, c, o[1..], ctx.regs);
      JustAmong(f.recs, out.recs, r.events, AllPos(b));
      MergeIsJoin([x.st, y.st], out.st);
      assert Le([x.st, y.st][0], out.st) && Le([x.st, y.st][1], out.st);
      if r.halt.Falls? { CoversUp(f.st, out.st, r.halt.c); }
    }
  }

  lemma {:induction false} CallSound(s: Stmt, st: State, c: Conc, o: seq<nat>, ctx: Ctx)
    requires s.Call? && Flow(s, st, ctx).Flows? && Covers(st, c) && FitInside(s, st, ctx)
    ensures Sound(Run(s, c, o, ctx.regs), Flow(s, st, ctx), ExitsOf(s))
    decreases |o|, s, 1
  {
    var ctx' := ctx.(inTask := true, forcing := ctx.forcing || Forces(s.task));
    ExprJust(s.args, st, c, ctx);
    ExprRecPositions(s.args, st, ctx);
    RecPositions(s.task, st, ctx');
    assert Flow(s, st, ctx).recs == ExprRecs(s.args, st);
    RunSound(s.task, st, c, o, ctx');
    EventPositions(s.task, c, o, ctx.regs);
    JustAmong([], ExprRecs(s.args, st), Run(s.task, c, o, ctx.regs).events, AllPos(s.task));
  }

  lemma {:induction false} LoopSound(s: Stmt, st: State, c: Conc, o: seq<nat>, ctx: Ctx)
    requires s.Loop? && Flow(s, st, ctx).Flows? && Covers(st, c) && FitInside(s, st, ctx)
    ensures Sound(Run(s, c, o, ctx.regs), Flow(s, st, ctx), ExitsOf(s))
    decreases |o|, s, 1
  {
    hide Merge;
    var b, n := s.body, Bound(s.body, st);
    var f := Iterate(b, st, st, ctx, n).st;
    IterateFixed(b, st, st, ctx, n);
    MergeIsJoin([st, Flow(b, f, ctx).st], f);
    assert Le([st, Flow(b, f, ctx).st][0], f) && Le([st, Flow(b, f, ctx).st][1], f);
    CoversUp(st, f, c);
    RunLoopSound(s.header, b, f, c, o, ctx);
  }

  /** Any number of rounds of a loop whose state `f` covers its own body. */
  lemma {:induction false} RunLoopSound(e: Expr, b: Stmt, f: State, c: Conc, o: seq<nat>, ctx: Ctx)
    requires Flow(b, f, ctx).Flows? && Le(Flow(b, f, ctx).st, f)
    requires Covers(f, c) && Fit(b, f, ctx)
    requires ReadsOk(e, f, ctx, false) && NoRepeat(e) && EApart(e, b)
    ensures Sound(RunLoop(e, b, c, o, ctx.regs), Flows(f, ExprRecs(e, f) + Flow(b, f, ctx).recs), Exits(true, ExitsOf(b).jumps))
    decreases |o|, b, 4
  {
    var recs := ExprRecs(e, f) + Flow(b, f, ctx).recs;
    ExprRecPositions(e, f, ctx);
    RecPositions(b, f, ctx);
    RecInAll(b);
    if o != [] && o[0] == 1 {
      ExprJust(e, f, c, ctx);
      ExprEventPositions(e, c);
      JustAmong(ExprRecs(e, f), recs, Events(e, c), ExprPos(e));
      RunLoopSound(e, b, f, c, o[1..], ctx);
    } else if o != [] && o[0] != 0 {
      RunSound(b, f, c, o[1..], ctx);
      EventPositions(b, c, o[1..], ctx.regs);
      var x := Run(b, c, o[1..], ctx.regs);
      JustAmong(Flow(b, f, ctx).recs, recs, x.events, AllPos(b));
      if x.halt.Falls? {
        CoversUp(Flow(b, f, ctx).st, f, x.halt.c);
        RunLoopSound(e, b, f, x.halt.c, x.rest, ctx);
      }
    }
  }

  lemma {:induction false} ItemsAt(items: seq<Item>, st: State, ctx: Ctx, k: nat)
    requires FlowItems(items, st, ctx).Paths? && k < |items|
    ensures var f := Flow(items[k].body, st, ctx);
            && f.Flows?
            && FlowItems(items, st, ctx).outs[k] == f.st
            && (forall r | r in f.recs :: r in FlowItems(items, st, ctx).recs)
    ensures forall r | r in FlowItems(items, st, ctx).recs && r !in Flow(items[k].body, st, ctx).recs ::
      exists j :: 0 <= j < |items| && j != k && r.pos in RecPos(items[j].body)
    decreases items
  {
    var rest := FlowItems(items[1..], st, ctx);
    RecPositionsItems(items[1..], st, ctx);
    RecPositions(items[0].body, st, ctx);
    if k > 0 {
      ItemsAt(items[1..], st, ctx, k - 1);
    }
    forall r | r in FlowItems(items, st, ctx).recs && r !in Flow(items[k].body, st, ctx).recs
      ensures exists j :: 0 <= j < |items| && j != k && r.pos in RecPos(items[j].body)
    {
      if r in Flow(items[0].body, st, ctx).recs {
        assert r.pos in RecPos(items[0].body);
      } else if k > 0 {
        var j :| 0 <= j < |items[1..]| && j != k - 1 && r.pos in RecPos(items[1..][j].body);
        assert items[j + 1] == items[1..][j];
      } else {
        assert r.pos in ItemPos(items[1..]);
        var x :| x in items[1..] && r.pos in RecPos(x.body);
        var j :| 0 <= j < |items[1..]| && items[1..][j] == x;
        assert items[j + 1] == x;
      }
    }
  }

  lemma {:induction false} CaseSound(s: Stmt, st: State, c: Conc, o: seq<nat>, ctx: Ctx)
    requires s.Case? && Flow(s, st, ctx).Flows? && Covers(st, c) && FitInside(s, st, ctx)
    ensures Sound(Run(s, c, o, ctx.regs), Flow(s, st, ctx), ExitsOf(s))
    decreases |o|, s, 1
  {
    hide Merge, Flow, AllPos, RecPos, Just, Covers, Le, EventsIn, Labels, Events, Fit, FitInside;
    var out := Flow(s, st, ctx);
    if o == [] {
      CaseLabelsJust(s, st, c, ctx, 0);
    } else {
      var k := if o[0] < |s.items| then o[0] + 1 else |s.items|;
      CaseLabelsJust(s, st, c, ctx, k);
      var b := if o[0] < |s.items| then s.items[o[0]].body else s.dflt;
      assert o[0] < |s.items| ==> s.items[o[0]] in s.items;
      CaseArm(s, st, ctx, o[0], b);
      RunSound(b, st, c, o[1..], ctx);
      EventPositions(b, c, o[1..], ctx.regs);
      var r := Run(b, c, o[1..], ctx.regs);
      JustAmong(Flow(b, st, ctx).recs, out.recs, r.events, AllPos(b));
      if r.halt.Falls? { CoversUp(Flow(b, st, ctx).st, out.st, r.halt.c); }
    }
  }

  /** The reads of a case's selector and of the labels it gets to. */
  lemma CaseLabelsJust(s: Stmt, st: State, c: Conc, ctx: Ctx, k: nat)
    requires s.Case? && Flow(s, st, ctx).Flows? && Covers(st, c) && FitInside(s, st, ctx) && k <= |s.items|
    ensures AllJust(Flow(s, st, ctx).recs, Events(s.sel + Labels(s.items[..k]), c))
    ensures k == 0 ==> s.sel + Labels(s.items[..k]) == s.sel
    ensures k == |s.items| ==> s.items[..k] == s.items
  {
    hide Merge, Covers, Just;
    ExprJust(s.sel + Labels(s.items), st, c, ctx);
    var e, out := s.sel + Labels(s.items), Flow(s, st, ctx);
    LabelsSplit(s.items, k);
    var pre, post := s.sel + Labels(s.items[..k]), Labels(s.items[k..]);
    assert e == pre + post;
    EventsJoin(pre, post, c);
    ExprEventPositions(e, c);
    RecPositionsItems(s.items, st, ctx);
    RecPositions(s.dflt, st, ctx);
    RecInAll(s.dflt);
    forall x | x in s.items { RecInAll(x.body); }
    forall r | r in out.recs
      ensures r in ExprRecs(e, st) || r.pos !in ExprPos(e)
    {
      if r in FlowItems(s.items, st, ctx).recs {
        assert r.pos in ItemPos(s.items);
        var x :| x in s.items && r.pos in RecPos(x.body);
        assert EApart(e, x.body);
      } else if r in Flow(s.dflt, st, ctx).recs {
        assert EApart(e, s.dflt);
      }
    }
    JustAmong(ExprRecs(e, st), out.recs, Events(e, c), ExprPos(e));
  }

  lemma {:induction false} ArmExits(items: seq<Item>, k: nat)
    requires k < |items|
    ensures (ExitsOf(items[k].body).falls ==> ExitsItems(items).falls) && ExitsOf(items[k].body).jumps <= ExitsItems(items).jumps
  {
    hide ExitsOf;
    if k > 0 { ArmExits(items[1..], k - 1); }
  }

  /** One arm of a case: its records are among the case's, the others are apart from its reads,
      and its state is below the merged one. */
  lemma CaseArm(s: Stmt, st: State, ctx: Ctx, k: nat, b: Stmt)
    requires s.Case? && Flow(s, st, ctx).Flows? && FitInside(s, st, ctx)
    requires b == if k < |s.items| then s.items[k].body else s.dflt
    ensures Fit(b, st, ctx)
    ensures Flow(b, st, ctx).Flows? && Le(Flow(b, st, ctx).st, Flow(s, st, ctx).st)
    ensures forall r | r in Flow(b, st, ctx).recs :: r in Flow(s, st, ctx).recs
    ensures forall r | r in Flow(s, st, ctx).recs :: r in Flow(b, st, ctx).recs || r.pos !in AllPos(b)
    ensures (ExitsOf(b).falls ==> ExitsOf(s).falls) && ExitsOf(b).jumps <= ExitsOf(s).jumps
  {
    hide Merge;
    if k < |s.items| { ArmExits(s.items, k); }
    var e, out := s.sel + Labels(s.items), Flow(s, st, ctx);
    var xs := FlowItems(s.items, st, ctx);
    var all := xs.outs + [Flow(s.dflt, st, ctx).st];
    MergeIsJoin(all, out.st);
    assert all[|s.items|] == Flow(s.dflt, st, ctx).st;
    ExprRecPositions(e, st, ctx);
    RecPositionsItems(s.items, st, ctx);
    RecPositions(s.dflt, st, ctx);
    if k < |s.items| {
      ItemsAt(s.items, st, ctx, k);
      assert all[k] == Flow(b, st, ctx).st;
      assert s.items[k] in s.items;
      forall r | r in out.recs
        ensures r in Flow(b, st, ctx).recs || r.pos !in AllPos(b)
      {
        if r in ExprRecs(e, st) {
          assert EApart(e, b);
        } else if r in xs.recs && r !in Flow(b, st, ctx).recs {
          var j :| 0 <= j < |s.items| && j != k && r.pos in RecPos(s.items[j].body);
          assert if j < k then SApart(s.items[j].body, b) else SApart(b, s.items[j].body);
        } else if r in Flow(s.dflt, st, ctx).recs {
          assert SApart(b, s.dflt);
        }
      }
    } else {
      forall r | r in out.recs
        ensures r in Flow(b, st, ctx).recs || r.pos !in AllPos(b)
      {
        if r in ExprRecs(e, st) {
          assert EApart(e, b);
        } else if r in xs.recs {
          var x :| x in s.items && r.pos in RecPos(x.body);
          assert SApart(x.body, s.dflt);
        }
      }
    }
  }

  /** Some concrete state that an abstract one covers. */
  function Witness(st: State): Conc {
    map n | n in st :: Pend(match st[n]
                            case At(at) => Assigned(at)
                            case Released => Deassigned
                            case _ => NoForce, false)
  }

  lemma WitnessCovers(st: State)
    ensures Covers(st, Witness(st))
  {}
}
