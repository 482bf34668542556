/** The override-state analysis of analyze.py (`track`, `track_expr`, `stale`, `jump`) over an
    abstract statement tree: a transfer function with its refusals and the reads it records.
    Tasks are inlined at their calls. */
module OverrideFlow {
  import opened OverrideState

  /** One read of a signal at a source position, or a call of a function that reads signals. */
  datatype Part =
    | Read(reg: Reg, pos: Span)
    | Func(names: seq<Reg>)

  type Expr = seq<Part>

  /** What a jump names: a block around it, a loop (`break`) or its body (`continue`), a task (`return`). */
  type Label = string

  /** A `disable` may also name a block elsewhere; what follows it is then executed as usual. */
  datatype Target = Around(name: Label) | Elsewhere

  /** `labels` are the expressions of one case item. */
  datatype Item = Item(labels: Expr, body: Stmt)

  datatype Stmt =
    | Seq(stmts: seq<Stmt>)
    | Timed(timing: Expr, body: Stmt)          // `#d s` or `@(e) s`
    | Wait(cond: Expr, body: Stmt)
    | Force(reg: Reg, rhs: Expr, at: Span)     // `assign reg = rhs;`
    | Deassign(reg: Reg)
    | If(cond: Expr, thn: Stmt, els: Stmt)
    | Case(sel: Expr, items: seq<Item>, dflt: Stmt)
    | Write(targets: set<Reg>, expr: Expr)    // blocking; `expr`: right side and selectors
    | DelayedWrite(targets: set<Reg>, expr: Expr)  // `x = #d e;`
    | Eval(expr: Expr)                        // nonblocking writes, declarations, system calls
    | Call(args: Expr, task: Stmt)
    | Loop(header: Expr, body: Stmt)
    | Named(name: Label, body: Stmt)         // a place that jumps name: they land at its end
    | Jump(target: Target, refused: bool)     // refused: a disable of an unresolved or directly forcing target
    | Skip

  /** `regs`: the forced registers of the module; `inTask`: inside an inlined task body;
      `forcing`: the enclosing block or task holds an assign/deassign itself. */
  datatype Ctx = Ctx(regs: set<Reg>, inTask: bool, forcing: bool)

  /** A recorded read: the register, where, and which override is active there. */
  datatype Rec = Rec(reg: Reg, pos: Span, active: Abs)

  datatype Out =
    | Refused
    | Exhausted
    | Flows(st: State, recs: seq<Rec>)

  /** `forced_in`: an assign or deassign in the statement itself, called tasks excluded. */
  predicate Forces(s: Stmt) {
    match s
    case Seq(ss) => exists x | x in ss :: Forces(x)
    case Timed(_, b) => Forces(b)
    case Wait(_, b) => Forces(b)
    case Force(_, _, _) => true
    case Deassign(_) => true
    case If(_, a, b) => Forces(a) || Forces(b)
    case Case(_, items, d) => (exists x | x in items :: Forces(x.body)) || Forces(d)
    case Loop(_, b) => Forces(b)
    case Named(_, b) => Forces(b)
    case _ => false
  }

  // ---- reads (`stale`, `stale_read`) -----------------------------------------------------------

  /** Whether a read of `p` is allowed in state `st`; `pinned` reads (event controls, wait
      conditions, override expressions) and reads inside a task cannot be substituted. */
  predicate PartOk(p: Part, st: State, ctx: Ctx, pinned: bool) {
    match p
    case Read(n, _) => n in st ==> !pinned && !ctx.inTask && st[n] != Ambiguous
    case Func(rs) => forall n | n in rs :: n !in st
  }

  predicate ReadsOk(e: Expr, st: State, ctx: Ctx, pinned: bool) {
    forall p | p in e :: PartOk(p, st, ctx, pinned)
  }

  function PartRecs(p: Part, st: State): seq<Rec> {
    if p.Read? && p.reg in st then [Rec(p.reg, p.pos, st[p.reg])] else []
  }

  function ExprRecs(e: Expr, st: State): seq<Rec> {
    if e == [] then [] else PartRecs(e[0], st) + ExprRecs(e[1..], st)
  }

  function Labels(items: seq<Item>): Expr {
    if items == [] then [] else items[0].labels + Labels(items[1..])
  }

  /** A wait may or may not suspend: whatever was known is ambiguous after it. */
  function Blur(st: State): State { map n | n in st :: Ambiguous }

  /** A blocking write makes a register `Fresh` unless its override is exactly known. */
  function AfterWrite(st: State, targets: set<Reg>): State {
    st + map n | n in targets && (n !in st || st[n] == Ambiguous || st[n] == Fresh) :: Fresh
  }

  function Reading(e: Expr, st: State, ctx: Ctx, next: State): Out {
    if ReadsOk(e, st, ctx, false) then Flows(next, ExprRecs(e, st)) else Refused
  }

  /** Sequencing of outcomes: `b` is what follows, already computed from `a`'s state. */
  function Then(recs: seq<Rec>, b: Out): Out {
    if b.Flows? then Flows(b.st, recs + b.recs) else b
  }

  // ---- the transfer function (`track`) -----------------------------------------------------------

  function Flow(s: Stmt, st: State, ctx: Ctx): Out
    decreases s, 0
  {
    match s
    case Seq(ss) => FlowSeq(ss, st, ctx)
    case Timed(e, b) =>
      if ReadsOk(e, st, ctx, true) then Flow(b, map[], ctx) else Refused
    case Wait(e, b) =>
      if ReadsOk(e, st, ctx, true) then Flow(b, Blur(st), ctx) else Refused
    case Force(n, e, at) =>
      if ReadsOk(e, st, ctx, true) then Flows(st[n := At(at)], []) else Refused
    case Deassign(n) => Flows(st[n := Released], [])
    case If(e, a, b) =>
      if !ReadsOk(e, st, ctx, false) then Refused else
      var x := Flow(a, st, ctx);
      if !x.Flows? then x else
      var y := Flow(b, st, ctx);
      if !y.Flows? then y else
      Flows(Merge([x.st, y.st]), ExprRecs(e, st) + x.recs + y.recs)
    case Case(e, items, d) =>
      if !ReadsOk(e + Labels(items), st, ctx, false) then Refused else
      var xs := FlowItems(items, st, ctx);
      if !xs.Paths? then xs.why else
      var y := Flow(d, st, ctx);
      if !y.Flows? then y else
      Flows(Merge(xs.outs + [y.st]), ExprRecs(e + Labels(items), st) + xs.recs + y.recs)
    case Write(ts, e) => Reading(e, st, ctx, AfterWrite(st, ts * ctx.regs))
    case DelayedWrite(_, e) => Reading(e, st, ctx, map[])
    case Eval(e) => Reading(e, st, ctx, st)
    case Call(e, t) =>
      if !ReadsOk(e, st, ctx, false) then Refused else
      Then(ExprRecs(e, st), Flow(t, st, ctx.(inTask := true, forcing := ctx.forcing || Forces(t))))
    case Loop(e, b) =>
      var fix := Iterate(b, st, st, ctx, Bound(b, st));
      if !fix.Flows? then fix else
      if !ReadsOk(e, fix.st, ctx, false) then Refused else
      Flows(fix.st, ExprRecs(e, fix.st) + fix.recs)
    case Named(_, b) => Flow(b, st, ctx)
    case Jump(_, refused) => if st != map[] || ctx.forcing || refused then Refused else Flows(st, [])
    case Skip => Flows(st, [])
  }

  function FlowSeq(ss: seq<Stmt>, st: State, ctx: Ctx): Out
    decreases ss, 0
  {
    if ss == [] then Flows(st, []) else
    var x := Flow(ss[0], st, ctx);
    if !x.Flows? then x else Then(x.recs, FlowSeq(ss[1..], x.st, ctx))
  }

  datatype PathsOut = Fails(why: Out) | Paths(outs: seq<State>, recs: seq<Rec>)

  function FlowItems(items: seq<Item>, st: State, ctx: Ctx): (r: PathsOut)
    ensures r.Paths? ==> |r.outs| == |items|
    ensures r.Fails? ==> !r.why.Flows?
    decreases items, 0
  {
    if items == [] then Paths([], []) else
    var x := Flow(items[0].body, st, ctx);
    if !x.Flows? then Fails(x) else
    var xs := FlowItems(items[1..], st, ctx);
    if xs.Fails? then xs else Paths([x.st] + xs.outs, x.recs + xs.recs)
  }

  /** The loop fixpoint from `cur`, with `n` steps to spare; the result is the state that
      reproduces itself and the reads recorded by one more walk of the body. */
  function Iterate(b: Stmt, st: State, cur: State, ctx: Ctx, n: nat): Out
    decreases b, n + 1
  {
    var x := Flow(b, cur, ctx);
    if !x.Flows? then x else
    var nxt := Merge([st, x.st]);
    if nxt == cur then Flows(cur, x.recs)
    else if n == 0 then Exhausted
    else Iterate(b, st, nxt, ctx, n - 1)
  }

  /** The registers a statement can put into the state. */
  function Touched(s: Stmt): set<Reg> {
    match s
    case Seq(ss) => set x, n | x in ss && n in Touched(x) :: n
    case Timed(_, b) => Touched(b)
    case Wait(_, b) => Touched(b)
    case Force(n, _, _) => {n}
    case Deassign(n) => {n}
    case If(_, a, b) => Touched(a) + Touched(b)
    case Case(_, items, d) => (set x, n | x in items && n in Touched(x.body) :: n) + Touched(d)
    case Write(ts, _) => ts
    case Call(_, t) => Touched(t)
    case Loop(_, b) => Touched(b)
    case Named(_, b) => Touched(b)
    case _ => {}
  }

  /** Twice the registers in play: no ascending chain is longer. */
  function Bound(b: Stmt, st: State): nat { 2 * |st.Keys + Touched(b)| }

  // ---- monotonicity --------------------------------------------------------------------------------

  lemma {:induction false} FlowMonotone(s: Stmt, a: State, b: State, ctx: Ctx)
    requires Le(a, b)
    requires Flow(s, a, ctx).Flows? && Flow(s, b, ctx).Flows?
    ensures Le(Flow(s, a, ctx).st, Flow(s, b, ctx).st)
    decreases s, 0
  {
    hide FlowSeq, FlowItems, Iterate, Forces, Merge, Le, Blur, AfterWrite, ReadsOk, ExprRecs, Labels, Touched, Bound;
    match s
    case Seq(ss) => FlowSeqMonotone(ss, a, b, ctx);
    case Timed(e, body) => LeReflexive(Flow(body, map[], ctx).st);
    case Wait(e, body) =>
      BlurMonotone(a, b);
      FlowMonotone(body, Blur(a), Blur(b), ctx);
    case Force(n, _, at) => UpdateMonotone(a, b, n, At(at));
    case Deassign(n) => UpdateMonotone(a, b, n, Released);
    case If(e, x, y) =>
      FlowMonotone(x, a, b, ctx);
      FlowMonotone(y, a, b, ctx);
      MergeMonotone([Flow(x, a, ctx).st, Flow(y, a, ctx).st], [Flow(x, b, ctx).st, Flow(y, b, ctx).st]);
    case Case(e, items, d) =>
      FlowItemsMonotone(items, a, b, ctx);
      FlowMonotone(d, a, b, ctx);
      MergeMonotone(FlowItems(items, a, ctx).outs + [Flow(d, a, ctx).st],
                    FlowItems(items, b, ctx).outs + [Flow(d, b, ctx).st]);
    case Write(ts, _) => AfterWriteMonotone(a, b, ts * ctx.regs);
    case DelayedWrite(_, _) => LeReflexive(map[]);
    case Eval(_) =>
    case Call(e, t) => FlowMonotone(t, a, b, ctx.(inTask := true, forcing := ctx.forcing || Forces(t)));
    case Loop(e, body) =>
      var fa, fb := Iterate(body, a, a, ctx, Bound(body, a)), Iterate(body, b, b, ctx, Bound(body, b));
      IterateFixed(body, b, b, ctx, Bound(body, b));
      MergeIsJoin([b, Flow(body, fb.st, ctx).st], fb.st);
      assert Le([b, Flow(body, fb.st, ctx).st][0], fb.st);
      assert Le([b, Flow(body, fb.st, ctx).st][1], fb.st);
      LeTransitive(a, b, fb.st);
      IterateLeast(body, a, a, ctx, Bound(body, a), fb.st);
    case Named(_, body) => FlowMonotone(body, a, b, ctx);
    case Jump(_, _) =>
    case Skip =>
  }

  lemma BlurMonotone(a: State, b: State)
    requires Le(a, b)
    ensures Le(Blur(a), Blur(b))
  {
    forall n: Reg
      ensures ValLe(Get(Blur(a), n), Get(Blur(b), n))
    {
      assert ValLe(Get(a, n), Get(b, n));
    }
  }

  lemma AfterWriteMonotone(a: State, b: State, targets: set<Reg>)
    requires Le(a, b)
    ensures Le(AfterWrite(a, targets), AfterWrite(b, targets))
  {
    forall n: Reg
      ensures ValLe(Get(AfterWrite(a, targets), n), Get(AfterWrite(b, targets), n))
    {
      assert ValLe(Get(a, n), Get(b, n));
    }
  }

  lemma UpdateMonotone(a: State, b: State, n: Reg, v: Abs)
    requires Le(a, b)
    ensures Le(a[n := v], b[n := v])
  {
    var a', b' := a[n := v], b[n := v];
    forall m: Reg
      ensures ValLe(Get(a', m), Get(b', m))
    {
      assert ValLe(Get(a, m), Get(b, m));
    }
  }

  lemma MergeMonotone(xs: seq<State>, ys: seq<State>)
    requires xs != [] && |xs| == |ys|
    requires forall i :: 0 <= i < |xs| ==> Le(xs[i], ys[i])
    ensures Le(Merge(xs), Merge(ys))
  {
    MergeIsJoin(ys, Merge(ys));
    forall i | 0 <= i < |xs|
      ensures Le(xs[i], Merge(ys))
    {
      LeTransitive(xs[i], ys[i], Merge(ys));
    }
    MergeIsJoin(xs, Merge(ys));
  }

  lemma {:induction false} FlowSeqMonotone(ss: seq<Stmt>, a: State, b: State, ctx: Ctx)
    requires Le(a, b)
    requires FlowSeq(ss, a, ctx).Flows? && FlowSeq(ss, b, ctx).Flows?
    ensures Le(FlowSeq(ss, a, ctx).st, FlowSeq(ss, b, ctx).st)
    decreases ss, 0
  {
    hide Flow, Le, Merge;
    if ss != [] {
      FlowMonotone(ss[0], a, b, ctx);
      FlowSeqMonotone(ss[1..], Flow(ss[0], a, ctx).st, Flow(ss[0], b, ctx).st, ctx);
    }
  }

  lemma {:induction false} FlowItemsMonotone(items: seq<Item>, a: State, b: State, ctx: Ctx)
    requires Le(a, b)
    requires FlowItems(items, a, ctx).Paths? && FlowItems(items, b, ctx).Paths?
    ensures forall i :: 0 <= i < |items| ==> Le(FlowItems(items, a, ctx).outs[i], FlowItems(items, b, ctx).outs[i])
    decreases items, 0
  {
    hide Flow, Le, Merge;
    if items != [] {
      FlowMonotone(items[0].body, a, b, ctx);
      FlowItemsMonotone(items[1..], a, b, ctx);
    }
  }

  /** What the loop computes reproduces itself: it covers zero or more runs of the body. */
  lemma {:induction false} IterateFixed(b: Stmt, st: State, cur: State, ctx: Ctx, n: nat)
    requires Iterate(b, st, cur, ctx, n).Flows?
    ensures var f := Iterate(b, st, cur, ctx, n);
            && Flow(b, f.st, ctx).Flows?
            && f.recs == Flow(b, f.st, ctx).recs
            && Merge([st, Flow(b, f.st, ctx).st]) == f.st
    decreases b, n + 1
  {
    hide Flow, Merge;
    var nxt := Merge([st, Flow(b, cur, ctx).st]);
    if nxt != cur {
      IterateFixed(b, st, nxt, ctx, n - 1);
    }
  }

  /** ... and is below every state that covers the entry state and the body. */
  lemma {:induction false} IterateLeast(b: Stmt, st: State, cur: State, ctx: Ctx, n: nat, p: State)
    requires Iterate(b, st, cur, ctx, n).Flows?
    requires Le(st, p) && Le(cur, p) && Flow(b, p, ctx).Flows? && Le(Flow(b, p, ctx).st, p)
    ensures Le(Iterate(b, st, cur, ctx, n).st, p)
    decreases b, n + 1
  {
    hide Flow, Merge, Le;
    var x := Flow(b, cur, ctx);
    var nxt := Merge([st, x.st]);
    if nxt != cur {
      FlowMonotone(b, cur, p, ctx);
      LeTransitive(x.st, Flow(b, p, ctx).st, p);
      MergeIsJoin([st, x.st], p);
      IterateLeast(b, st, nxt, ctx, n - 1, p);
    }
  }

  // ---- termination -----------------------------------------------------------------------------------

  lemma {:induction false} FlowKeys(s: Stmt, st: State, ctx: Ctx)
    requires Flow(s, st, ctx).Flows?
    ensures Flow(s, st, ctx).st.Keys <= st.Keys + Touched(s)
    decreases s, 0
  {
    hide FlowSeq, FlowItems, Iterate, Forces, Merge, Names, ReadsOk, ExprRecs, Labels, Bound;
    match s
    case Seq(ss) => FlowSeqKeys(ss, st, ctx);
    case Timed(e, b) => FlowKeys(b, map[], ctx);
    case Wait(e, b) => FlowKeys(b, Blur(st), ctx);
    case If(e, a, b) =>
      FlowKeys(a, st, ctx);
      FlowKeys(b, st, ctx);
      NamesOfTwo(Flow(a, st, ctx).st, Flow(b, st, ctx).st);
    case Case(e, items, d) =>
      FlowItemsKeys(items, st, ctx);
      FlowKeys(d, st, ctx);
      CaseKeys(e, items, d, FlowItems(items, st, ctx).outs, Flow(d, st, ctx).st, st.Keys);
    case Call(e, t) => FlowKeys(t, st, ctx.(inTask := true, forcing := ctx.forcing || Forces(t)));
    case Loop(e, b) => IterateKeys(b, st, st, ctx, Bound(b, st));
    case Named(_, b) => FlowKeys(b, st, ctx);
    case _ =>
  }

  lemma NamesOfTwo(a: State, b: State)
    ensures Names([a, b]) == a.Keys + b.Keys
  {
    assert [a, b][0] == a && [a, b][1] == b;
  }

  lemma CaseKeys(e: Expr, items: seq<Item>, d: Stmt, outs: seq<State>, last: State, keys: set<Reg>)
    requires |outs| == |items| && forall i :: 0 <= i < |items| ==> outs[i].Keys <= keys + Touched(items[i].body)
    requires last.Keys <= keys + Touched(d)
    ensures Names(outs + [last]) <= keys + Touched(Case(e, items, d))
  {
    var all := outs + [last];
    forall n | n in Names(all)
      ensures n in keys + Touched(Case(e, items, d))
    {
      var i :| 0 <= i < |all| && n in all[i];
      if i < |outs| {
        assert all[i] == outs[i];
        assert n in keys + Touched(items[i].body);
        assert items[i] in items;
      }
    }
  }

  lemma {:induction false} FlowSeqKeys(ss: seq<Stmt>, st: State, ctx: Ctx)
    requires FlowSeq(ss, st, ctx).Flows?
    ensures FlowSeq(ss, st, ctx).st.Keys <= st.Keys + Touched(Seq(ss))
    decreases ss, 0
  {
    if ss != [] {
      FlowKeys(ss[0], st, ctx);
      FlowSeqKeys(ss[1..], Flow(ss[0], st, ctx).st, ctx);
      assert ss[0] in ss;
      assert forall x | x in ss[1..] :: x in ss;
    }
  }

  lemma {:induction false} FlowItemsKeys(items: seq<Item>, st: State, ctx: Ctx)
    requires FlowItems(items, st, ctx).Paths?
    ensures forall i :: 0 <= i < |items| ==>
      FlowItems(items, st, ctx).outs[i].Keys <= st.Keys + Touched(items[i].body)
    decreases items, 0
  {
    if items != [] {
      FlowKeys(items[0].body, st, ctx);
      FlowItemsKeys(items[1..], st, ctx);
    }
  }

  lemma {:induction false} IterateKeys(b: Stmt, st: State, cur: State, ctx: Ctx, n: nat)
    requires Iterate(b, st, cur, ctx, n).Flows?
    requires cur.Keys <= st.Keys + Touched(b)
    ensures Iterate(b, st, cur, ctx, n).st.Keys <= st.Keys + Touched(b)
    decreases b, n + 1
  {
    hide Flow, Touched, Merge;
    FlowKeys(b, cur, ctx);
    var nxt := Merge([st, Flow(b, cur, ctx).st]);
    if nxt != cur {
      IterateKeys(b, st, nxt, ctx, n - 1);
    }
  }

  /** No loop, at any nesting depth, needs more steps than its bound: the analysis ends with a
      state or a refusal. */
  lemma {:induction false} FlowTerminates(s: Stmt, st: State, ctx: Ctx)
    ensures Flow(s, st, ctx) != Exhausted
    decreases s, 0
  {
    hide FlowSeq, FlowItems, Iterate, Forces, Merge, Le, Blur, AfterWrite, ReadsOk, ExprRecs, Labels, Touched, Rank, Ascending, Bound;
    match s
    case Seq(ss) => FlowSeqTerminates(ss, st, ctx);
    case Timed(e, b) => FlowTerminates(b, map[], ctx);
    case Wait(e, b) => FlowTerminates(b, Blur(st), ctx);
    case If(e, a, b) =>
      FlowTerminates(a, st, ctx);
      FlowTerminates(b, st, ctx);
      IfTerminates(s, st, ctx);
    case Case(e, items, d) =>
      FlowItemsTerminate(items, st, ctx);
      FlowTerminates(d, st, ctx);
      CaseTerminates(s, st, ctx);
    case Call(e, t) => FlowTerminates(t, st, ctx.(inTask := true, forcing := ctx.forcing || Forces(t)));
    case Loop(e, b) => LoopTerminates(e, b, st, ctx);
    case Named(_, b) => FlowTerminates(b, st, ctx);
    case _ => SimpleTerminates(s, st, ctx);
  }

  lemma SimpleTerminates(s: Stmt, st: State, ctx: Ctx)
    requires !(s.Seq? || s.Timed? || s.Wait? || s.If? || s.Case? || s.Call? || s.Loop? || s.Named?)
    ensures Flow(s, st, ctx) != Exhausted
  {}

  lemma IfTerminates(s: Stmt, st: State, ctx: Ctx)
    requires s.If? && Flow(s.thn, st, ctx) != Exhausted && Flow(s.els, st, ctx) != Exhausted
    ensures Flow(s, st, ctx) != Exhausted
  {}

  lemma CaseTerminates(s: Stmt, st: State, ctx: Ctx)
    requires s.Case? && Flow(s.dflt, st, ctx) != Exhausted
    requires FlowItems(s.items, st, ctx).Fails? ==> FlowItems(s.items, st, ctx).why != Exhausted
    ensures Flow(s, st, ctx) != Exhausted
  {}

  lemma {:induction false} LoopTerminates(e: Expr, b: Stmt, st: State, ctx: Ctx)
    ensures Flow(Loop(e, b), st, ctx) != Exhausted
    decreases b, Bound(b, st) + 2
  {
    hide FlowSeq, FlowItems, Iterate, Merge, Le, ReadsOk, ExprRecs, Touched, Rank, Ascending;
    FirstStepAscends(b, st, ctx);
    IterateTerminates(b, st, st, ctx, Bound(b, st));
  }

  lemma {:induction false} FlowSeqTerminates(ss: seq<Stmt>, st: State, ctx: Ctx)
    ensures FlowSeq(ss, st, ctx) != Exhausted
    decreases ss, 0
  {
    hide Flow;
    if ss != [] {
      FlowTerminates(ss[0], st, ctx);
      if Flow(ss[0], st, ctx).Flows? {
        FlowSeqTerminates(ss[1..], Flow(ss[0], st, ctx).st, ctx);
      }
    }
  }

  lemma {:induction false} FlowItemsTerminate(items: seq<Item>, st: State, ctx: Ctx)
    ensures FlowItems(items, st, ctx).Fails? ==> FlowItems(items, st, ctx).why != Exhausted
    decreases items, 0
  {
    hide Flow;
    if items != [] {
      FlowTerminates(items[0].body, st, ctx);
      FlowItemsTerminate(items[1..], st, ctx);
    }
  }

  /** The next state of the fixpoint is never below the present one. */
  ghost predicate Ascending(b: Stmt, st: State, cur: State, ctx: Ctx) {
    Flow(b, cur, ctx).Flows? ==> Le(cur, Merge([st, Flow(b, cur, ctx).st]))
  }

  lemma FirstStepAscends(b: Stmt, st: State, ctx: Ctx)
    ensures Ascending(b, st, st, ctx)
  {
    hide Flow, Merge, Le;
    if Flow(b, st, ctx).Flows? {
      MergeIsJoin([st, Flow(b, st, ctx).st], st);
      assert Le([st, Flow(b, st, ctx).st][0], Merge([st, Flow(b, st, ctx).st]));
    }
  }

  lemma NextStepAscends(b: Stmt, st: State, cur: State, ctx: Ctx)
    requires Ascending(b, st, cur, ctx) && Flow(b, cur, ctx).Flows?
    ensures Ascending(b, st, Merge([st, Flow(b, cur, ctx).st]), ctx)
  {
    hide Flow, Merge, Le;
    var nxt := Merge([st, Flow(b, cur, ctx).st]);
    if Flow(b, nxt, ctx).Flows? {
      FlowMonotone(b, cur, nxt, ctx);
      LeReflexive(st);
      MergeMonotone([st, Flow(b, cur, ctx).st], [st, Flow(b, nxt, ctx).st]);
    }
  }

  /** One step of the fixpoint that changes the state climbs, inside the bound. */
  lemma StepClimbs(b: Stmt, st: State, cur: State, ctx: Ctx)
    requires Ascending(b, st, cur, ctx) && Flow(b, cur, ctx).Flows?
    requires cur.Keys <= st.Keys + Touched(b)
    requires Merge([st, Flow(b, cur, ctx).st]) != cur
    ensures var nxt := Merge([st, Flow(b, cur, ctx).st]);
            && nxt.Keys <= st.Keys + Touched(b)
            && Rank(cur) < Rank(nxt) <= Bound(b, st)
  {
    hide Flow, Merge, Touched, Rank, Raised, Top;
    var nxt := Merge([st, Flow(b, cur, ctx).st]);
    FlowKeys(b, cur, ctx);
    RankAscends(cur, nxt);
    RankBound(nxt, st.Keys + Touched(b));
  }

  lemma {:induction false} IterateTerminates(b: Stmt, st: State, cur: State, ctx: Ctx, n: nat)
    requires Ascending(b, st, cur, ctx)
    requires cur.Keys <= st.Keys + Touched(b)
    requires n + Rank(cur) >= Bound(b, st)
    ensures Iterate(b, st, cur, ctx, n) != Exhausted
    decreases b, n + 1
  {
    hide Flow, Merge, Touched, Rank, Bound, Ascending;
    FlowTerminates(b, cur, ctx);
    if Flow(b, cur, ctx).Flows? {
      var nxt := Merge([st, Flow(b, cur, ctx).st]);
      if nxt != cur {
        StepClimbs(b, st, cur, ctx);
        NextStepAscends(b, st, cur, ctx);
        IterateTerminates(b, st, nxt, ctx, n - 1);
      }
    }
  }
}
