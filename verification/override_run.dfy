/** Executions of the statements of `OverrideFlow` (procedural assign and deassign as in section
    10.6.1 of IEEE Std 1800-2017), and the soundness of the analysis: every read it records sees
    the recorded override, and every read it leaves alone has nothing pending. */
module OverrideRun {
  import opened OverrideState
  import opened OverrideFlow

  /** The last forcing statement executed on a register since the process last suspended. */
  datatype Last = NoForce | Assigned(at: Span) | Deassigned

  /** What is pending on a register; `written`: an ordinary write since the last suspension. */
  datatype Pend = Pend(last: Last, written: bool)

  /** A register absent from the map has nothing pending. */
  type Conc = map<Reg, Pend>

  function Look(c: Conc, n: Reg): Pend {
    if n in c then c[n] else Pend(NoForce, false)
  }

  predicate Clear(p: Pend) { p == Pend(NoForce, false) }

  datatype Option<T> = None | Some(value: T)

  /** A read that took place; `pos` is None inside a called function. */
  datatype Event = Event(reg: Reg, pos: Option<Span>, pend: Pend)

  /** How a statement ends: it falls through, leaves by a jump, or the execution is cut there. */
  datatype Halt = Falls(c: Conc) | Jumped(goal: Label, c: Conc) | Cut

  /** `rest`: the choices not yet used. */
  datatype Result = Result(events: seq<Event>, halt: Halt, rest: seq<nat>)

  function Inner(names: seq<Reg>, c: Conc): seq<Event> {
    seq(|names|, i requires 0 <= i < |names| => Event(names[i], None, Look(c, names[i])))
  }

  function Events(e: Expr, c: Conc): seq<Event> {
    if e == [] then [] else
    (match e[0]
     case Read(n, pos) => [Event(n, Some(pos), Look(c, n))]
     case Func(names) => Inner(names, c)) + Events(e[1..], c)
  }

  /** A jump lands at the end of the innermost statement around it that has the name. */
  function Land(r: Result, name: Label): Result {
    if r.halt.Jumped? && r.halt.goal == name then r.(halt := Falls(r.halt.c)) else r
  }

  function Before(events: seq<Event>, r: Result): Result { r.(events := events + r.events) }

  /** Runs `s` from `c`. Branches, loop exits and wait suspensions are decided by the choices `o`; when they
      run out the execution is cut, so the runs over all choice sequences are all finite executions and all
      finite prefixes of the endless ones. */
  function Run(s: Stmt, c: Conc, o: seq<nat>, regs: set<Reg>): (r: Result)
    ensures |r.rest| <= |o|
    decreases |o|, s, 0
  {
    match s
    case Seq(ss) => RunSeq(ss, c, o, regs)
    case Timed(e, b) => Before(Events(e, c), Run(b, map[], o, regs))
    case Wait(e, b) =>
      if o == [] then Result(Events(e, c), Cut, o)
      else Before(Events(e, c), Run(b, if o[0] == 0 then c else map[], o[1..], regs))
    case Force(n, e, at) => Result(Events(e, c), Falls(c[n := Pend(Assigned(at), Look(c, n).written)]), o)
    case Deassign(n) => Result([], Falls(c[n := Pend(Deassigned, Look(c, n).written)]), o)
    case If(e, x, y) =>
      if o == [] then Result(Events(e, c), Cut, o)
      else Before(Events(e, c), Run(if o[0] == 0 then x else y, c, o[1..], regs))
    case Case(e, items, d) =>
      if o == [] then Result(Events(e, c), Cut, o)
      else if o[0] < |items| then
        Before(Events(e + Labels(items[..o[0] + 1]), c), Run(items[o[0]].body, c, o[1..], regs))
      else Before(Events(e + Labels(items), c), Run(d, c, o[1..], regs))
    case Write(ts, e) => Result(Events(e, c), Falls(Written(c, ts * regs)), o)
    case DelayedWrite(ts, e) => Result(Events(e, c), Falls(Written(map[], ts * regs)), o)
    case Eval(e) => Result(Events(e, c), Falls(c), o)
    case Call(e, t) => Before(Events(e, c), Run(t, c, o, regs))
    case Loop(e, b) => RunLoop(e, b, c, o, regs)
    case Named(l, b) => Land(Run(b, c, o, regs), l)
    case Jump(Around(l), _) => Result([], Jumped(l, c), o)
    case Jump(Elsewhere, _) => Result([], Falls(c), o)
    case Skip => Result([], Falls(c), o)
  }

  function Written(c: Conc, ts: set<Reg>): Conc {
    c + map n | n in ts :: Pend(Look(c, n).last, true)
  }

  function RunSeq(ss: seq<Stmt>, c: Conc, o: seq<nat>, regs: set<Reg>): (r: Result)
    ensures |r.rest| <= |o|
    decreases |o|, ss, 0
  {
    if ss == [] then Result([], Falls(c), o) else
    var x := Run(ss[0], c, o, regs);
    if !x.halt.Falls? then x
    else Before(x.events, RunSeq(ss[1..], x.halt.c, x.rest, regs))
  }

  /** The header is evaluated, the body run, or the loop left, any number of times in any order:
      for, while, do-while, repeat and forever loops are all among these. */
  function RunLoop(e: Expr, b: Stmt, c: Conc, o: seq<nat>, regs: set<Reg>): (r: Result)
    ensures |r.rest| <= |o|
    decreases |o|, b, 2
  {
    if o == [] then Result([], Cut, o)
    else if o[0] == 0 then Result([], Falls(c), o[1..])
    else if o[0] == 1 then Before(Events(e, c), RunLoop(e, b, c, o[1..], regs))
    else
      var x := Run(b, c, o[1..], regs);
      if !x.halt.Falls? then x else Before(x.events, RunLoop(e, b, x.halt.c, x.rest, regs))
  }

  // ---- the meaning of an abstract state ----------------------------------------------------------

  predicate Admits(v: Val, p: Pend) {
    match v
    case Missing => Clear(p)
    case Known(At(at)) => p.last == Assigned(at)
    case Known(Released) => p.last == Deassigned
    case Known(_) => true
  }

  ghost predicate Covers(st: State, c: Conc) {
    forall n :: Admits(Get(st, n), Look(c, n))
  }

  lemma CoversUp(a: State, b: State, c: Conc)
    requires Le(a, b) && Covers(a, c)
    ensures Covers(b, c)
  {
    forall n
      ensures Admits(Get(b, n), Look(c, n))
    {
      assert ValLe(Get(a, n), Get(b, n)) && Admits(Get(a, n), Look(c, n));
    }
  }

  /** A recorded read with state `active` is substituted correctly when `pend` is the truth:
      a known override is the last one, and a fresh read is right in every state. */
  predicate Matches(active: Abs, pend: Pend) {
    match active
    case At(at) => pend.last == Assigned(at)
    case Released => pend.last == Deassigned
    case Fresh => true
    case Ambiguous => false
  }

  predicate SameRead(r: Rec, e: Event) { e.reg == r.reg && e.pos == Some(r.pos) }

  /** Every record of the read agrees with the truth; without a record nothing is pending. */
  ghost predicate Just(recs: seq<Rec>, e: Event) {
    && (forall r | r in recs && SameRead(r, e) :: Matches(r.active, e.pend))
    && ((forall r | r in recs :: !SameRead(r, e)) ==> Clear(e.pend))
  }

  ghost predicate AllJust(recs: seq<Rec>, es: seq<Event>) { forall e | e in es :: Just(recs, e) }

  // ---- source positions ----------------------------------------------------------------------------

  function ExprPos(e: Expr): set<Span> { set p | p in e && p.Read? :: p.pos }

  predicate NoRepeat(e: Expr) {
    forall i, j :: 0 <= i < j < |e| && e[i].Read? && e[j].Read? ==> e[i].pos != e[j].pos
  }

  /** The positions of the reads the walk may record: those outside task bodies. */
  function RecPos(s: Stmt): set<Span> {
    match s
    case Seq(ss) => set x, p | x in ss && p in RecPos(x) :: p
    case Timed(e, b) => ExprPos(e) + RecPos(b)
    case Wait(e, b) => ExprPos(e) + RecPos(b)
    case Force(_, e, _) => ExprPos(e)
    case If(e, a, b) => ExprPos(e) + RecPos(a) + RecPos(b)
    case Case(e, items, d) => ExprPos(e + Labels(items)) + (set x, p | x in items && p in RecPos(x.body) :: p) + RecPos(d)
    case Write(_, e) => ExprPos(e)
    case DelayedWrite(_, e) => ExprPos(e)
    case Eval(e) => ExprPos(e)
    case Call(e, _) => ExprPos(e)
    case Loop(e, b) => ExprPos(e) + RecPos(b)
    case Named(_, b) => RecPos(b)
    case _ => {}
  }

  /** All positions, those of inlined task bodies included. */
  function AllPos(s: Stmt): set<Span> {
    match s
    case Seq(ss) => set x, p | x in ss && p in AllPos(x) :: p
    case Timed(e, b) => ExprPos(e) + AllPos(b)
    case Wait(e, b) => ExprPos(e) + AllPos(b)
    case Force(_, e, _) => ExprPos(e)
    case If(e, a, b) => ExprPos(e) + AllPos(a) + AllPos(b)
    case Case(e, items, d) => ExprPos(e + Labels(items)) + (set x, p | x in items && p in AllPos(x.body) :: p) + AllPos(d)
    case Write(_, e) => ExprPos(e)
    case DelayedWrite(_, e) => ExprPos(e)
    case Eval(e) => ExprPos(e)
    case Call(e, t) => ExprPos(e) + AllPos(t)
    case Loop(e, b) => ExprPos(e) + AllPos(b)
    case Named(_, b) => AllPos(b)
    case _ => {}
  }

  ghost predicate Apart(ra: set<Span>, aa: set<Span>, rb: set<Span>, ab: set<Span>) { ra !! ab && rb !! aa }

  ghost predicate SApart(a: Stmt, b: Stmt) { Apart(RecPos(a), AllPos(a), RecPos(b), AllPos(b)) }

  ghost predicate EApart(e: Expr, s: Stmt) { ExprPos(e) !! AllPos(s) }

  /** Different reads have different source positions; a task body may be inlined repeatedly. */
  ghost predicate Distinct(s: Stmt) {
    match s
    case Seq(ss) =>
      && (forall i, j :: 0 <= i < j < |ss| ==> SApart(ss[i], ss[j]))
      && (forall x | x in ss :: Distinct(x))
    case Timed(e, b) => NoRepeat(e) && EApart(e, b) && Distinct(b)
    case Wait(e, b) => NoRepeat(e) && EApart(e, b) && Distinct(b)
    case Force(_, e, _) => NoRepeat(e)
    case If(e, a, b) => NoRepeat(e) && EApart(e, a) && EApart(e, b) && SApart(a, b) && Distinct(a) && Distinct(b)
    case Case(e, items, d) =>
      && NoRepeat(e + Labels(items))
      && EApart(e + Labels(items), d) && Distinct(d)
      && (forall i, j :: 0 <= i < j < |items| ==> SApart(items[i].body, items[j].body))
      && (forall x | x in items :: EApart(e + Labels(items), x.body) && SApart(x.body, d) && Distinct(x.body))
    case Write(_, e) => NoRepeat(e)
    case DelayedWrite(_, e) => NoRepeat(e)
    case Eval(e) => NoRepeat(e)
    case Call(e, t) => NoRepeat(e) && EApart(e, t) && Distinct(t)
    case Loop(e, b) => NoRepeat(e) && EApart(e, b) && Distinct(b)
    case Named(_, b) => Distinct(b)
    case _ => true
  }

  // ---- the two guards of soundness ---------------------------------------------------------------

  /** Whether a statement, or a task it calls, holds an assign or deassign. */
  predicate ForcesDeep(s: Stmt) {
    match s
    case Seq(ss) => exists x | x in ss :: ForcesDeep(x)
    case Timed(_, b) => ForcesDeep(b)
    case Wait(_, b) => ForcesDeep(b)
    case Force(_, _, _) => true
    case Deassign(_) => true
    case If(_, a, b) => ForcesDeep(a) || ForcesDeep(b)
    case Case(_, items, d) => (exists x | x in items :: ForcesDeep(x.body)) || ForcesDeep(d)
    case Call(_, t) => ForcesDeep(t)
    case Loop(_, b) => ForcesDeep(b)
    case Named(_, b) => ForcesDeep(b)
    case _ => false
  }

  /** Every jump is in a block or task that forces a register itself, so `jump` refuses it. */
  predicate JumpsRefused(s: Stmt, forcing: bool) {
    match s
    case Seq(ss) => forall x | x in ss :: JumpsRefused(x, forcing)
    case Timed(_, b) => JumpsRefused(b, forcing)
    case Wait(_, b) => JumpsRefused(b, forcing)
    case If(_, a, b) => JumpsRefused(a, forcing) && JumpsRefused(b, forcing)
    case Case(_, items, d) => (forall x | x in items :: JumpsRefused(x.body, forcing)) && JumpsRefused(d, forcing)
    case Call(_, t) => JumpsRefused(t, forcing || Forces(t))
    case Loop(_, b) => JumpsRefused(b, forcing)
    case Named(_, b) => JumpsRefused(b, forcing)
    case Jump(_, refused) => forcing || refused
    case _ => true
  }

  /** No intra-assignment delay assigns a forced register. */
  predicate DelaysPlain(s: Stmt, regs: set<Reg>) {
    match s
    case Seq(ss) => forall x | x in ss :: DelaysPlain(x, regs)
    case Timed(_, b) => DelaysPlain(b, regs)
    case Wait(_, b) => DelaysPlain(b, regs)
    case If(_, a, b) => DelaysPlain(a, regs) && DelaysPlain(b, regs)
    case Case(_, items, d) => (forall x | x in items :: DelaysPlain(x.body, regs)) && DelaysPlain(d, regs)
    case DelayedWrite(ts, _) => ts !! regs
    case Call(_, t) => DelaysPlain(t, regs)
    case Loop(_, b) => DelaysPlain(b, regs)
    case Named(_, b) => DelaysPlain(b, regs)
    case _ => true
  }

  // ---- where a jump may land -------------------------------------------------------------------------

  /** No register is in an exact state. */
  predicate Mild(st: State) { forall n | n in st :: st[n] == Ambiguous || st[n] == Fresh }

  /** How a statement can be left: by its end, or by jumps that land further out. */
  datatype Exits = Exits(falls: bool, jumps: set<Label>)

  function Either(a: Exits, b: Exits): Exits { Exits(a.falls || b.falls, a.jumps + b.jumps) }

  function ExitsOf(s: Stmt): Exits {
    match s
    case Seq(ss) => ExitsSeq(ss)
    case Timed(_, b) => ExitsOf(b)
    case Wait(_, b) => ExitsOf(b)
    case If(_, a, b) => Either(ExitsOf(a), ExitsOf(b))
    case Case(_, items, d) => Either(ExitsItems(items), ExitsOf(d))
    case Call(_, t) => ExitsOf(t)
    case Loop(_, b) => Exits(true, ExitsOf(b).jumps)
    case Named(l, b) => Exits(ExitsOf(b).falls || l in ExitsOf(b).jumps, ExitsOf(b).jumps - {l})
    case Jump(Around(l), _) => Exits(false, {l})
    case _ => Exits(true, {})
  }

  /** What follows a statement that cannot be left by its end is never reached. */
  function ExitsSeq(ss: seq<Stmt>): Exits {
    if ss == [] then Exits(true, {}) else
    var x := ExitsOf(ss[0]);
    if !x.falls then x else Exits(ExitsSeq(ss[1..]).falls, x.jumps + ExitsSeq(ss[1..]).jumps)
  }

  function ExitsItems(items: seq<Item>): Exits {
    if items == [] then Exits(false, {}) else Either(ExitsOf(items[0].body), ExitsItems(items[1..]))
  }

  /** Of the statements of one that the analysis accepts from `st`: where a jump can land, the state computed
      there names no override exactly. */
  ghost predicate Landable(s: Stmt, st: State, ctx: Ctx)
    decreases s, 2
  {
    Flow(s, st, ctx).Flows? ==> LandableInside(s, st, ctx) && (LandedOn(s) ==> Mild(Flow(s, st, ctx).st))
  }

  /** A jump can land at the end of the statement. */
  predicate LandedOn(s: Stmt) { s.Named? && s.name in ExitsOf(s.body).jumps }

  /** The same of the statements inside. */
  ghost predicate LandableInside(s: Stmt, st: State, ctx: Ctx)
    decreases s, 1
  {
    match s
    case Seq(ss) => LandableSeq(ss, st, ctx)
    case Timed(_, b) => Landable(b, map[], ctx)
    case Wait(_, b) => Landable(b, Blur(st), ctx)
    case If(_, a, b) => Landable(a, st, ctx) && Landable(b, st, ctx)
    case Case(_, items, d) => (forall x | x in items :: Landable(x.body, st, ctx)) && Landable(d, st, ctx)
    case Call(_, t) => Landable(t, st, ctx.(inTask := true, forcing := ctx.forcing || Forces(t)))
    case Loop(_, b) =>
      var fix := Iterate(b, st, st, ctx, Bound(b, st));
      fix.Flows? ==> Landable(b, fix.st, ctx)
    case Named(_, b) => Landable(b, st, ctx)
    case _ => true
  }

  ghost predicate LandableSeq(ss: seq<Stmt>, st: State, ctx: Ctx)
    decreases ss, 0
  {
    ss == [] || (Landable(ss[0], st, ctx) && (Flow(ss[0], st, ctx).Flows? ==> LandableSeq(ss[1..], Flow(ss[0], st, ctx).st, ctx)))
  }
}
