/** Admission of heavy commands by memory budget (heavy.py): token locks taken under a gate, the
    old mutex held shared, locks inherited by the command. A world steps by the steps of any of
    its processes, each of which may die at any moment. */
module Heavy {
  import opened Sets

  const G: nat := 0x4000_0000
  const BUDGET_G: nat := 96
  const TOKEN_G: nat := 4
  const TOKENS: nat := BUDGET_G / TOKEN_G
  const VIVADO_G: nat := 16
  const TOKEN_BYTES: nat := TOKEN_G * G

  datatype Option<T> = None | Some(value: T)

  // ---- tokens_for ----------------------------------------------------------------------------------

  /** What a command declares, in bytes: its own cap, its containers and its Vivado scopes. */
  datatype Decl = Decl(mem: nat, containers: nat, cap: nat, vivado: nat)

  function Bytes(d: Decl): nat { d.mem + d.containers * d.cap + d.vivado * (VIVADO_G * G) }

  /** `tokens_for`: whole tokens, rounded up; None when over the budget. */
  function TokensFor(d: Decl): (need: Option<nat>)
    ensures need.Some? <==> Bytes(d) <= BUDGET_G * G
    ensures need.Some? ==> need.value <= TOKENS && Bytes(d) <= need.value * TOKEN_BYTES
    ensures need.Some? && need.value > 0 ==> (need.value - 1) * TOKEN_BYTES < Bytes(d)
  {
    var t := TOKEN_BYTES;
    var need := (Bytes(d) + t - 1) / t;
    if need > TOKENS then None else Some(need)
  }

  // ---- processes and locks -----------------------------------------------------------------------

  type Pid = nat

  /** Where `run` is: before the shared old mutex, before the gate, in `_take_tokens` at the lock
      with the given number, admitted, running its command, or after its command. */
  datatype Phase = Starting | AtGate | Scanning(next: nat) | Admitted | Running | Finishing

  /** `parent`, `child`: the `xut heavy` process and the command it started are alive. */
  datatype Proc = Proc(decl: Decl, need: nat, phase: Phase, held: set<nat>, parent: bool, child: bool)

  /** `gate`, `tokens`, `exclusive` and `shared` are the lock table of the kernel; a lock is there
      for as long as a live process has its file open. `exclusive`: an old-style command. */
  datatype World = World(
    procs: map<Pid, Proc>,
    gate: Option<Pid>,
    tokens: map<nat, Pid>,
    shared: set<Pid>,
    exclusive: Option<Pid>)

  const Quiet := World(map[], None, map[], {}, None)

  datatype Step =
    | Arrive(p: Pid, decl: Decl)
    | ShareOld(p: Pid)    // LOCK_SH on the old mutex
    | TakeGate(p: Pid)
    | Try(p: Pid)         // one turn of the loop of `_take_tokens`
    | Spawn(p: Pid)       // subprocess.run with pass_fds
    | Exit(p: Pid)        // the command ends
    | Finish(p: Pid)      // the parent leaves `admit` after its command
    | Die(p: Pid)         // the parent dies
    | OldTake(p: Pid)     // an old-style command gets the mutex exclusively
    | OldExit(p: Pid)

  /** The locks of a process with no live user are dropped by the kernel. */
  function Gone(w: World, p: Pid): World {
    World(w.procs - {p},
          if w.gate == Some(p) then None else w.gate,
          map t | t in w.tokens && w.tokens[t] != p :: w.tokens[t],
          w.shared - {p},
          w.exclusive)
  }

  function With(w: World, p: Pid, x: Proc): World { w.(procs := w.procs[p := x]) }

  /** One turn of `_take_tokens`: enough tokens ends it (and the gate is released), a free token
      is taken, a taken one skipped, and after the last one the scan starts again. */
  function TryNext(w: World, p: Pid): World
    requires p in w.procs && w.procs[p].phase.Scanning?
  {
    var x := w.procs[p];
    var i := x.phase.next;
    if |x.held| == x.need then With(w, p, x.(phase := Admitted)).(gate := None)
    else if i >= TOKENS then With(w, p, x.(phase := Scanning(0)))
    else if i in x.held || i in w.tokens then With(w, p, x.(phase := Scanning(i + 1)))
    else With(w, p, x.(phase := Scanning(i + 1), held := x.held + {i})).(tokens := w.tokens[i := p])
  }

  /** The world after a step, or None when the step cannot happen (it blocks, or makes no sense). */
  function Next(w: World, s: Step): Option<World> {
    var p := s.p;
    match s
    case Arrive(_, d) =>
      var need := TokensFor(d);
      if p in w.procs || w.exclusive == Some(p) || need.None? || need.value < 1 then None
      else Some(With(w, p, Proc(d, need.value, Starting, {}, true, false)))
    case ShareOld(_) =>
      if p in w.procs && w.procs[p].phase.Starting? && w.exclusive.None?
      then Some(With(w, p, w.procs[p].(phase := AtGate)).(shared := w.shared + {p})) else None
    case TakeGate(_) =>
      if p in w.procs && w.procs[p].phase.AtGate? && w.gate.None?
      then Some(With(w, p, w.procs[p].(phase := Scanning(0))).(gate := Some(p))) else None
    case Try(_) =>
      if p in w.procs && w.procs[p].phase.Scanning? then Some(TryNext(w, p)) else None
    case Spawn(_) =>
      if p in w.procs && w.procs[p].phase.Admitted?
      then Some(With(w, p, w.procs[p].(phase := Running, child := true))) else None
    case Exit(_) =>
      if p in w.procs && w.procs[p].child
      then if w.procs[p].parent then Some(With(w, p, w.procs[p].(phase := Finishing, child := false)))
           else Some(Gone(w, p))
      else None
    case Finish(_) =>
      if p in w.procs && w.procs[p].phase.Finishing? then Some(Gone(w, p)) else None
    case Die(_) =>
      if p in w.procs && w.procs[p].parent
      then if w.procs[p].child then Some(With(w, p, w.procs[p].(parent := false))) else Some(Gone(w, p))
      else None
    case OldTake(_) =>
      if p !in w.procs && w.exclusive.None? && w.shared == {} then Some(w.(exclusive := Some(p))) else None
    case OldExit(_) =>
      if w.exclusive == Some(p) then Some(w.(exclusive := None)) else None
  }

  /** A run: any interleaving of steps, each possible when it is taken. */
  function Exec(w: World, steps: seq<Step>): Option<World>
    decreases steps
  {
    if steps == [] then Some(w) else
    var x := Next(w, steps[0]);
    if x.None? then None else Exec(x.value, steps[1..])
  }

  // ---- the invariant ---------------------------------------------------------------------------------

  predicate Owned(x: Proc) { x.phase.Admitted? || x.phase.Running? || x.phase.Finishing? }

  ghost predicate GoodProc(w: World, p: Pid)
    requires p in w.procs
  {
    var x := w.procs[p];
    && x.need >= 1 && TokensFor(x.decl) == Some(x.need)
    && (x.parent || x.child)
    && (x.child <==> x.phase.Running?)
    && (forall t :: t in x.held <==> t in w.tokens && w.tokens[t] == p)
    && (x.phase.Starting? || x.phase.AtGate? ==> x.held == {})
    && (x.phase.Scanning? ==> |x.held| <= x.need && x.phase.next <= TOKENS)
    && (x.phase.Scanning? <==> w.gate == Some(p))
    && (Owned(x) ==> |x.held| == x.need)
    && (p in w.shared <==> !x.phase.Starting?)
  }

  ghost predicate Inv(w: World) {
    && (forall p | p in w.procs :: GoodProc(w, p))
    && (forall t | t in w.tokens :: t < TOKENS && w.tokens[t] in w.procs)
    && (w.gate.Some? ==> w.gate.value in w.procs)
    && (forall p | p in w.shared :: p in w.procs)
    && (w.exclusive.Some? ==> w.shared == {} && w.exclusive.value !in w.procs)
  }

  /** A process is unaffected by a change that leaves its record and its locks alone. */
  lemma Unaffected(w: World, w': World, q: Pid)
    requires q in w.procs && GoodProc(w, q) && q in w'.procs && w'.procs[q] == w.procs[q]
    requires w'.gate == Some(q) <==> w.gate == Some(q)
    requires forall t :: (t in w'.tokens && w'.tokens[t] == q) <==> (t in w.tokens && w.tokens[t] == q)
    requires q in w'.shared <==> q in w.shared
    ensures GoodProc(w', q)
  {
    hide TokensFor, Bytes;
  }

  lemma GoneInv(w: World, p: Pid)
    requires Inv(w) && p in w.procs
    ensures Inv(Gone(w, p))
  {
    var w' := Gone(w, p);
    forall q | q in w'.procs
      ensures GoodProc(w', q)
    {
      assert GoodProc(w, q);
    }
  }

  lemma StepInv(w: World, s: Step)
    requires Inv(w) && Next(w, s).Some?
    ensures Inv(Next(w, s).value)
  {
    hide TokensFor, Bytes, Inv, TryNext;
    var w', p := Next(w, s).value, s.p;
    if p in w.procs && p !in w'.procs {
      LeaveInv(w, s);
    } else if s.Try? {
      TryInv(w, p);
    } else if s.TakeGate? || s.ShareOld? || s.OldTake? || s.OldExit? {
      LockInv(w, s);
    } else {
      LifeInv(w, s);
    }
  }

  lemma LeaveInv(w: World, s: Step)
    requires Inv(w) && Next(w, s).Some? && s.p in w.procs && s.p !in Next(w, s).value.procs
    ensures Next(w, s) == Some(Gone(w, s.p)) && Inv(Gone(w, s.p))
  {
    hide Inv, TokensFor, Bytes;
    GoneInv(w, s.p);
  }

  lemma LockInv(w: World, s: Step)
    requires Inv(w) && Next(w, s).Some? && (s.TakeGate? || s.ShareOld? || s.OldTake? || s.OldExit?)
    ensures Inv(Next(w, s).value)
  {
    hide TokensFor, Bytes, TryNext, Gone;
    var w', p := Next(w, s).value, s.p;
    forall q | q in w'.procs && q != p
      ensures GoodProc(w', q)
    {
      assert GoodProc(w, q);
      Unaffected(w, w', q);
    }
    if p in w'.procs { OwnLock(w, s); }
  }

  lemma OwnLock(w: World, s: Step)
    requires Inv(w) && Next(w, s).Some? && (s.TakeGate? || s.ShareOld? || s.OldTake? || s.OldExit?)
    requires s.p in Next(w, s).value.procs
    ensures GoodProc(Next(w, s).value, s.p)
  {
    hide TokensFor, Bytes, TryNext, Gone, GoodProc;
    Unpack(w, s.p);
    if s.TakeGate? { GateTaken(w, s.p); } else if s.ShareOld? { OldShared(w, s.p); }
  }

  lemma GateTaken(w: World, p: Pid)
    requires p in w.procs && GoodProc(w, p) && w.procs[p].phase.AtGate?
    ensures GoodProc(With(w, p, w.procs[p].(phase := Scanning(0))).(gate := Some(p)), p)
  {
    hide TokensFor, Bytes;
  }

  lemma OldShared(w: World, p: Pid)
    requires p in w.procs && GoodProc(w, p) && w.procs[p].phase.Starting?
    ensures GoodProc(With(w, p, w.procs[p].(phase := AtGate)).(shared := w.shared + {p}), p)
  {
    hide TokensFor, Bytes;
  }

  lemma LifeInv(w: World, s: Step)
    requires Inv(w) && Next(w, s).Some? && (s.Arrive? || s.Spawn? || s.Exit? || s.Die?) && s.p in Next(w, s).value.procs
    ensures Inv(Next(w, s).value)
  {
    hide TokensFor, Bytes, TryNext;
    var w', p := Next(w, s).value, s.p;
    assert p in w.procs ==> GoodProc(w, p);
    forall q | q in w'.procs && q != p
      ensures GoodProc(w', q)
    {
      assert GoodProc(w, q);
      Unaffected(w, w', q);
    }
    assert GoodProc(w', p) by { OwnLife(w, s); }
  }

  lemma OwnLife(w: World, s: Step)
    requires Inv(w) && Next(w, s).Some? && (s.Arrive? || s.Spawn? || s.Exit? || s.Die?) && s.p in Next(w, s).value.procs
    ensures GoodProc(Next(w, s).value, s.p)
  {
    hide Bytes, TryNext;
    assert s.p in w.procs ==> GoodProc(w, s.p);
  }

  lemma OwnTry(w: World, p: Pid)
    requires p in w.procs && GoodProc(w, p) && w.procs[p].phase.Scanning?
    ensures p in TryNext(w, p).procs && GoodProc(TryNext(w, p), p)
  {
    hide TokensFor, Bytes;
    var x, w' := w.procs[p], TryNext(w, p);
    if |x.held| != x.need && x.phase.next < TOKENS && !(x.phase.next in x.held || x.phase.next in w.tokens) {
      OwnTake(w, p);
    }
  }

  lemma OwnTake(w: World, p: Pid)
    requires p in w.procs && GoodProc(w, p) && w.procs[p].phase.Scanning?
    requires var x := w.procs[p]; |x.held| != x.need && x.phase.next < TOKENS && x.phase.next !in w.tokens
    ensures p in TryNext(w, p).procs && GoodProc(TryNext(w, p), p)
  {
    hide TokensFor, Bytes;
    var x := w.procs[p];
    var i := x.phase.next;
    var held := x.held + {i};
    assert i !in x.held;
    assert |held| == |x.held| + 1;
    var w' := TryNext(w, p);
    assert w' == With(w, p, x.(phase := Scanning(i + 1), held := held)).(tokens := w.tokens[i := p]);
  }

  lemma TryInv(w: World, p: Pid)
    requires Inv(w) && p in w.procs && w.procs[p].phase.Scanning?
    ensures Inv(TryNext(w, p))
  {
    hide TokensFor, Bytes, GoodProc;
    var w' := TryNext(w, p);
    OwnTry(w, p);
    forall q | q in w'.procs && q != p
      ensures GoodProc(w', q)
    {
      OtherTry(w, p, q);
    }
  }

  lemma OtherTry(w: World, p: Pid, q: Pid)
    requires p in w.procs && GoodProc(w, p) && w.procs[p].phase.Scanning? && q in w.procs && q != p && GoodProc(w, q)
    ensures q in TryNext(w, p).procs && GoodProc(TryNext(w, p), q)
  {
    hide TokensFor, Bytes;
    Unaffected(w, TryNext(w, p), q);
  }

  lemma {:induction false} ExecInv(w: World, steps: seq<Step>)
    requires Inv(w) && Exec(w, steps).Some?
    ensures Inv(Exec(w, steps).value)
    decreases steps
  {
    if steps != [] {
      StepInv(w, steps[0]);
      ExecInv(Next(w, steps[0]).value, steps[1..]);
    }
  }

  // ---- the budget --------------------------------------------------------------------------------------

  /** The sum of a quantity over a set of processes. */
  ghost function Sum(ps: set<Pid>, f: Pid -> nat): nat {
    if ps == {} then 0 else
    var p :| p in ps;
    f(p) + Sum(ps - {p}, f)
  }

  /** The commands that hold memory: started and not yet ended, whether or not `xut heavy` itself
      is still alive, and those admitted that are about to start or just ended. */
  function Commands(w: World): set<Pid> { set p | p in w.procs && Owned(w.procs[p]) }

  function Declared(w: World): Pid -> nat { p => if p in w.procs then Bytes(w.procs[p].decl) else 0 }

  function TokensOf(w: World, ps: set<Pid>): set<nat> { set t | t in w.tokens && w.tokens[t] in ps }

  lemma {:induction false} SumBound(w: World, ps: set<Pid>)
    requires Inv(w) && ps <= Commands(w)
    ensures Sum(ps, Declared(w)) <= |TokensOf(w, ps)| * TOKEN_BYTES
    decreases ps
  {
    hide Bytes, TokensFor, Inv, TokensOf, Commands, Declared, Held;
    if ps != {} {
      var p :| p in ps && Sum(ps, Declared(w)) == Declared(w)(p) + Sum(ps - {p}, Declared(w));
      SumBound(w, ps - {p});
      OneMore(w, ps, p);
      Distribute(|TokensOf(w, ps - {p})|, |Held(w, p)|, TOKEN_BYTES);
    }
  }

  lemma Distribute(a: nat, b: nat, c: nat)
    ensures (a + b) * c == a * c + b * c
  {}

  lemma OneMore(w: World, ps: set<Pid>, p: Pid)
    requires Inv(w) && ps <= Commands(w) && p in ps
    ensures |TokensOf(w, ps)| == |TokensOf(w, ps - {p})| + |Held(w, p)|
    ensures Declared(w)(p) <= |Held(w, p)| * TOKEN_BYTES
  {
    hide Bytes, TokensFor;
    assert GoodProc(w, p);
    assert TokensOf(w, ps) == TokensOf(w, ps - {p}) + w.procs[p].held;
    assert TokensOf(w, ps - {p}) !! w.procs[p].held;
  }

  function Below(n: nat): (s: set<nat>)
    ensures |s| == n && forall i: nat :: i in s <==> i < n
  {
    if n == 0 then {} else
    assert n - 1 !in Below(n - 1);
    Below(n - 1) + {n - 1}
  }

  lemma SumWithin(w: World)
    requires Inv(w)
    ensures Sum(Commands(w), Declared(w)) <= BUDGET_G * G
  {
    hide Below, TokensFor, Bytes, Sum, Declared, Commands;
    SumBound(w, Commands(w));
    SubsetSize(TokensOf(w, Commands(w)), Below(TOKENS));
    Scale(|TokensOf(w, Commands(w))|, TOKENS, TOKEN_BYTES);
  }

  lemma Scale(a: nat, b: nat, c: nat)
    requires a <= b
    ensures a * c <= b * c
  {}

  /** In every run: each running command holds exactly the tokens it declared, no token is held
      twice, all commands together declare at most the budget, and while an old-style command
      runs there is none. */
  lemma BudgetKept(steps: seq<Step>)
    requires Exec(Quiet, steps).Some?
    ensures var w := Exec(Quiet, steps).value;
            && (forall p | p in Commands(w) :: TokensFor(w.procs[p].decl) == Some(|w.procs[p].held|))
            && (forall p, q | p in w.procs && q in w.procs && p != q :: w.procs[p].held !! w.procs[q].held)
            && Sum(Commands(w), Declared(w)) <= BUDGET_G * G
            && (w.exclusive.Some? ==> Commands(w) == {})
  {
    hide TokensFor, Bytes, Declared;
    ExecInv(Quiet, steps);
    var w := Exec(Quiet, steps).value;
    SumWithin(w);
    forall p | p in w.procs
      ensures Owned(w.procs[p]) ==> TokensFor(w.procs[p].decl) == Some(|w.procs[p].held|) && w.exclusive.None?
    {
      assert GoodProc(w, p);
    }
    forall p, q | p in w.procs && q in w.procs && p != q
      ensures w.procs[p].held !! w.procs[q].held
    {
      assert GoodProc(w, p) && GoodProc(w, q);
    }
  }

  // ---- order at the gate -----------------------------------------------------------------------------

  /** What `p` holds; a process that is gone holds nothing. */
  function Held(w: World, p: Pid): set<nat> { if p in w.procs then w.procs[p].held else {} }

  /** While a process holds the gate nobody else gains a token, and only its own turn or its own
      death can take the gate from it: it is never overtaken. */
  lemma NotOvertaken(w: World, s: Step, g: Pid)
    requires Inv(w) && w.gate == Some(g) && Next(w, s).Some?
    ensures var w' := Next(w, s).value;
            && (forall q | q != g :: Held(w', q) <= Held(w, q))
            && (s != Try(g) && s != Die(g) ==> w'.gate == Some(g) && Held(w', g) == Held(w, g))
            && (s == Try(g) ==> Held(w, g) <= Held(w', g))
  {
    hide TokensFor, Bytes, Gone, TryNext, Inv;
    Unpack(w, g);
    if s.p in w.procs { Unpack(w, s.p); }
    if s.Try? {
      TryKeeps(w, s.p);
    } else if s.p in w.procs && s.p !in Next(w, s).value.procs {
      LeaveInv(w, s);
      GoneKeeps(w, s.p);
    } else {
      GoneKeeps(w, s.p);
    }
  }

  lemma TryKeeps(w: World, p: Pid)
    requires p in w.procs && w.procs[p].phase.Scanning? && w.gate == Some(p)
    ensures Held(w, p) <= Held(TryNext(w, p), p)
    ensures forall q | q != p :: Held(TryNext(w, p), q) == Held(w, q)
  {}

  lemma GoneKeeps(w: World, p: Pid)
    ensures Held(Gone(w, p), p) == {}
    ensures forall q | q != p :: Held(Gone(w, p), q) == Held(w, q)
    ensures w.gate != Some(p) ==> Gone(w, p).gate == w.gate
  {}

  /** Of the processes not yet admitted, only the one at the gate can hold tokens. */
  lemma OnlyGateHolderCollects(steps: seq<Step>, p: Pid)
    requires Exec(Quiet, steps).Some?
    requires var w := Exec(Quiet, steps).value;
             p in w.procs && !Owned(w.procs[p]) && w.procs[p].held != {}
    ensures Exec(Quiet, steps).value.gate == Some(p)
  {
    ExecInv(Quiet, steps);
    assert GoodProc(Exec(Quiet, steps).value, p);
  }

  /** No deadlock: a process waiting for the old mutex waits for a running old-style command; one
      waiting for the gate for a process that is collecting tokens; and the one collecting tokens
      is refused a token only by a command that already has all of its own, and waits for no lock. */
  lemma WaitChain(steps: seq<Step>, p: Pid)
    requires Exec(Quiet, steps).Some? && p in Exec(Quiet, steps).value.procs
    ensures var w := Exec(Quiet, steps).value;
            var x := w.procs[p];
            && (x.phase.Starting? && Next(w, ShareOld(p)).None? ==> w.exclusive.Some? && Next(w, OldExit(w.exclusive.value)).Some?)
            && (x.phase.AtGate? && Next(w, TakeGate(p)).None? ==>
                  w.gate.Some? && w.gate.value in w.procs && w.procs[w.gate.value].phase.Scanning?)
            && (x.phase.Scanning? && |x.held| < x.need ==>
                  forall t | t < TOKENS && t !in x.held && t in w.tokens ::
                    var q := w.tokens[t]; q in w.procs && q != p && Owned(w.procs[q]) && |w.procs[q].held| == w.procs[q].need)
            && (x.phase.Scanning? && |x.held| < x.need && (forall q | q in w.procs && q != p :: !Owned(w.procs[q])) ==>
                  exists t :: t < TOKENS && t !in w.tokens)
  {
    hide TokensFor, Bytes, Below;
    ExecInv(Quiet, steps);
    var w := Exec(Quiet, steps).value;
    var x := w.procs[p];
    assert GoodProc(w, p);
    assert w.gate.Some? ==> GoodProc(w, w.gate.value);
    forall t | t < TOKENS && t !in x.held && t in w.tokens && x.phase.Scanning?
      ensures w.tokens[t] in w.procs && w.tokens[t] != p && Owned(w.procs[w.tokens[t]]) && |w.procs[w.tokens[t]].held| == w.procs[w.tokens[t]].need
    {
      assert GoodProc(w, w.tokens[t]);
    }
    if x.phase.Scanning? && |x.held| < x.need && (forall q | q in w.procs && q != p :: !Owned(w.procs[q])) {
      SubsetSize(x.held, Below(TOKENS));
      assert x.held != Below(TOKENS);
      var t :| t in Below(TOKENS) && t !in x.held;
      assert t !in w.tokens;
    }
  }

  // ---- the gate holder is admitted -------------------------------------------------------------------

  /** The tokens held by anyone but `g`. */
  function Others(w: World, g: Pid): set<nat> { set t | t in w.tokens && w.tokens[t] != g }

  /** The tokens the others leave are enough for what `g` needs. */
  predicate Room(w: World, g: Pid) { g in w.procs && |Others(w, g)| + w.procs[g].need <= TOKENS }

  /** The free locks not yet reached by this scan. */
  function Ahead(w: World, g: Pid, i: nat): set<nat> { set t | i <= t < TOKENS && t !in w.tokens }

  /** Turns still needed when there is room: the rest of this scan if the free locks
      ahead are enough, and one more scan otherwise. */
  function Turns(w: World, g: Pid): nat
    requires g in w.procs && w.procs[g].phase.Scanning? && w.procs[g].phase.next <= TOKENS
  {
    var x := w.procs[g];
    var rest := TOKENS - x.phase.next + 1;
    if |x.held| + |Ahead(w, g, x.phase.next)| >= x.need then rest else rest + TOKENS + 1
  }

  ghost predicate Waiting(w: World, g: Pid) { Inv(w) && w.gate == Some(g) && Room(w, g) }

  /** A turn of the gate holder either admits it or brings it closer. */
  lemma TurnHelps(w: World, g: Pid)
    requires Waiting(w, g) && Next(w, Try(g)).Some?
    ensures g in w.procs && w.procs[g].phase.Scanning? && w.procs[g].phase.next <= TOKENS
    ensures var w' := Next(w, Try(g)).value;
            || (g in w'.procs && w'.procs[g].phase.Admitted?)
            || (Waiting(w', g) && g in w'.procs && w'.procs[g].phase.Scanning? && w'.procs[g].phase.next <= TOKENS
                && Turns(w', g) < Turns(w, g))
  {
    hide TokensFor, Bytes, Inv, TryNext;
    assert GoodProc(w, g) by { Unpack(w, g); }
    StepInv(w, Try(g));
    var x, w' := w.procs[g], TryNext(w, g);
    assert Next(w, Try(g)) == Some(w');
    TurnCases(w, g);
    if |x.held| < x.need {
      Unpack(w', g);
      if x.phase.next == TOKENS {
        AllFree(w, g);
      }
    }
  }

  lemma Unpack(w: World, g: Pid)
    requires Inv(w) && (w.gate == Some(g) || g in w.procs)
    ensures g in w.procs && GoodProc(w, g)
  {}

  /** What one turn changes when it does not admit. */
  lemma TurnCases(w: World, g: Pid)
    requires Waiting(w, g) && g in w.procs && w.procs[g].phase.Scanning?
    ensures var x, w' := w.procs[g], TryNext(w, g);
            var i := x.phase.next;
            && i <= TOKENS
            && (|x.held| >= x.need ==> g in w'.procs && w'.procs[g].phase.Admitted?)
            && (|x.held| < x.need ==>
                  && w'.gate == Some(g) && Others(w', g) == Others(w, g) && g in w'.procs && w'.procs[g].need == x.need
                  && (i == TOKENS ==> Ahead(w, g, i) == {} && w'.procs[g] == x.(phase := Scanning(0)) && w'.tokens == w.tokens)
                  && (i < TOKENS ==> w'.procs[g].phase == Scanning(i + 1))
                  && (i < TOKENS ==> |w'.procs[g].held| + |Ahead(w', g, i + 1)| == |x.held| + |Ahead(w, g, i)|))
  {
    hide TokensFor, Bytes, Others;
    Unpack(w, g);
    TryOthers(w, g);
    var x, w' := w.procs[g], TryNext(w, g);
    var i := x.phase.next;
    if |x.held| < x.need && i < TOKENS {
      if i in w.tokens {
        assert Ahead(w', g, i + 1) == Ahead(w, g, i);
      } else {
        TakeAhead(w, g);
      }
    }
  }

  lemma TryOthers(w: World, g: Pid)
    requires g in w.procs && w.procs[g].phase.Scanning?
    ensures Others(TryNext(w, g), g) == Others(w, g)
  {
    var i := w.procs[g].phase.next;
    assert i !in w.tokens ==> i !in Others(w, g);
  }

  lemma TakeAhead(w: World, g: Pid)
    requires g in w.procs && GoodProc(w, g) && w.procs[g].phase.Scanning?
    requires var x := w.procs[g]; |x.held| < x.need && x.phase.next < TOKENS && x.phase.next !in w.tokens
    ensures var x, w' := w.procs[g], TryNext(w, g);
            |w'.procs[g].held| + |Ahead(w', g, x.phase.next + 1)| == |x.held| + |Ahead(w, g, x.phase.next)|
  {
    hide TokensFor, Bytes;
    var x, w' := w.procs[g], TryNext(w, g);
    var i := x.phase.next;
    assert i !in x.held;
    var rest := Ahead(w', g, i + 1);
    assert w'.tokens == w.tokens[i := g];
    assert Ahead(w, g, i) == rest + {i};
    assert i !in rest;
    assert w'.procs[g].held == x.held + {i};
  }

  /** With room, the free tokens and its own are enough. */
  lemma AllFree(w: World, g: Pid)
    requires Waiting(w, g) && g in w.procs
    ensures |w.procs[g].held| + |Ahead(w, g, 0)| >= w.procs[g].need
  {
    hide TokensFor, Bytes, Below;
    assert GoodProc(w, g);
    var held, free, others := w.procs[g].held, Ahead(w, g, 0), Others(w, g);
    Partition(w, g);
    assert |held + free + others| == |held| + |free| + |others|;
  }

  /** Every token is held by the process, held by another, or free. */
  lemma Partition(w: World, g: Pid)
    requires Inv(w) && g in w.procs
    ensures w.procs[g].held + Ahead(w, g, 0) + Others(w, g) == Below(TOKENS)
    ensures w.procs[g].held !! Ahead(w, g, 0) && (w.procs[g].held + Ahead(w, g, 0)) !! Others(w, g)
  {
    hide Inv, GoodProc, Below;
    HeldAre(w, g);
  }

  lemma HeldAre(w: World, g: Pid)
    requires Inv(w) && g in w.procs
    ensures forall t :: t in w.procs[g].held <==> t in w.tokens && w.tokens[t] == g
    ensures forall t | t in w.tokens :: t < TOKENS
  {
    hide TokensFor, Bytes;
    assert GoodProc(w, g);
  }

  /** A step of anyone else leaves the gate holder's position as it is, or frees tokens for it. */
  lemma OthersHarmless(w: World, s: Step, g: Pid)
    requires Waiting(w, g) && s.p != g && Next(w, s).Some?
    ensures var w' := Next(w, s).value;
            && Waiting(w', g) && g in w.procs && g in w'.procs && w'.procs[g] == w.procs[g]
            && w.procs[g].phase.Scanning? && w.procs[g].phase.next <= TOKENS && Turns(w', g) <= Turns(w, g)
  {
    hide Inv, Next, GoodProc, Others, Ahead;
    Unpack(w, g);
    Scans(w, g);
    StepInv(w, s);
    OthersStep(w, s, g);
    var w' := Next(w, s).value;
    FewerTokens(w, w', g, w.procs[g].phase.next);
  }

  lemma Scans(w: World, g: Pid)
    requires g in w.procs && GoodProc(w, g) && w.gate == Some(g)
    ensures w.procs[g].phase.Scanning? && w.procs[g].phase.next <= TOKENS
  {}

  /** Only the gate holder takes tokens. */
  lemma OthersStep(w: World, s: Step, g: Pid)
    requires Inv(w) && w.gate == Some(g) && g in w.procs && s.p != g && Next(w, s).Some?
    ensures var w' := Next(w, s).value;
            && w'.gate == Some(g) && g in w'.procs && w'.procs[g] == w.procs[g]
            && forall t | t in w'.tokens :: t in w.tokens && w'.tokens[t] == w.tokens[t]
  {
    hide TokensFor, Bytes, TryNext;
    assert s.p in w.procs ==> GoodProc(w, s.p);
  }

  lemma FewerTokens(w: World, w': World, g: Pid, i: nat)
    requires forall t | t in w'.tokens :: t in w.tokens && w'.tokens[t] == w.tokens[t]
    ensures |Others(w', g)| <= |Others(w, g)| && |Ahead(w, g, i)| <= |Ahead(w', g, i)|
  {
    SubsetSize(Others(w', g), Others(w, g));
    SubsetSize(Ahead(w, g, i), Ahead(w', g, i));
  }

  function Count(steps: seq<Step>, s: Step): nat {
    if steps == [] then 0 else (if steps[0] == s then 1 else 0) + Count(steps[1..], s)
  }

  /** After the first `k` steps the process is admitted. */
  ghost predicate AdmittedAt(w: World, steps: seq<Step>, k: nat, g: Pid) {
    && k <= |steps|
    && Exec(w, steps[..k]).Some?
    && g in Exec(w, steps[..k]).value.procs
    && Exec(w, steps[..k]).value.procs[g].phase.Admitted?
  }

  /** Once the others leave room for its need, the gate holder is admitted after at most two scans,
      whatever the other processes do in between, unless it dies. */
  lemma {:induction false} GateHolderAdmitted(w: World, steps: seq<Step>, g: Pid)
    requires Waiting(w, g) && Exec(w, steps).Some? && Die(g) !in steps
    requires Count(steps, Try(g)) >= 2 * (TOKENS + 1)
    ensures exists k: nat :: AdmittedAt(w, steps, k, g)
  {
    assert GoodProc(w, g);
    AdmittedWithin(w, steps, g);
  }

  lemma {:induction false} AdmittedWithin(w: World, steps: seq<Step>, g: Pid)
    requires Waiting(w, g) && Exec(w, steps).Some? && Die(g) !in steps
    requires g in w.procs && w.procs[g].phase.Scanning? && w.procs[g].phase.next <= TOKENS
    requires Count(steps, Try(g)) >= Turns(w, g)
    ensures exists k: nat :: AdmittedAt(w, steps, k, g)
    decreases steps
  {
    hide Inv, Next, GoodProc, Turns, Room;
    assert steps != [] by { TurnsPositive(w, g); }
    var s, rest := steps[0], steps[1..];
    var w' := Next(w, s).value;
    if s.p == g {
      OwnStep(w, s, g);
      TurnHelps(w, g);
      if w'.procs[g].phase.Admitted? {
        assert steps[..1] == [s] && [s][1..] == [];
        assert Exec(w, steps[..1]) == Exec(w', []);
        assert AdmittedAt(w, steps, 1, g);
        return;
      }
    } else {
      OthersHarmless(w, s, g);
    }
    AdmittedWithin(w', rest, g);
    var k: nat :| AdmittedAt(w', rest, k, g);
    LaterAdmitted(w, steps, k, g);
  }

  lemma TurnsPositive(w: World, g: Pid)
    requires g in w.procs && w.procs[g].phase.Scanning? && w.procs[g].phase.next <= TOKENS
    ensures Turns(w, g) > 0
  {}

  lemma OwnStep(w: World, s: Step, g: Pid)
    requires Waiting(w, g) && s.p == g && Next(w, s).Some? && s != Die(g)
    ensures s == Try(g)
  {
    Unpack(w, g);
  }

  /** Until it is admitted the gate holder only gains tokens and everybody else only loses them. */
  lemma {:induction false} HoldersOnlyLeave(w: World, steps: seq<Step>, g: Pid)
    requires Inv(w) && w.gate == Some(g) && Exec(w, steps).Some? && Die(g) !in steps
    ensures var w' := Exec(w, steps).value;
            || (exists k: nat :: AdmittedAt(w, steps, k, g))
            || (w'.gate == Some(g) && SameNeed(w, w', g) && Held(w, g) <= Held(w', g) && forall q | q != g :: Held(w', q) <= Held(w, q))
    decreases steps
  {
    hide Inv, Next, Held, GoodProc;
    Unpack(w, g);
    if steps != [] {
      var s, rest := steps[0], steps[1..];
      var w' := Next(w, s).value;
      NotOvertaken(w, s, g);
      StepInv(w, s);
      if w'.gate != Some(g) {
        LostGate(w, s, g);
        assert steps[..1] == [s] && [s][1..] == [];
        assert Exec(w, steps[..1]) == Exec(w', []);
        assert AdmittedAt(w, steps, 1, g);
      } else {
        NeedKept(w, s, g);
        HoldersOnlyLeave(w', rest, g);
        if k: nat :| AdmittedAt(w', rest, k, g) {
          LaterAdmitted(w, steps, k, g);
        }
      }
    }
  }

  predicate SameNeed(w: World, w': World, g: Pid) { g in w.procs && g in w'.procs && w'.procs[g].need == w.procs[g].need }

  lemma NeedKept(w: World, s: Step, g: Pid)
    requires Inv(w) && w.gate == Some(g) && Next(w, s).Some? && Next(w, s).value.gate == Some(g)
    ensures SameNeed(w, Next(w, s).value, g)
  {
    hide TokensFor, Bytes, GoodProc, Inv;
    Unpack(w, g);
    StepInv(w, s);
    Unpack(Next(w, s).value, g);
  }

  lemma LostGate(w: World, s: Step, g: Pid)
    requires Inv(w) && w.gate == Some(g) && Next(w, s).Some? && Next(w, s).value.gate != Some(g) && s != Die(g)
    ensures g in Next(w, s).value.procs && Next(w, s).value.procs[g].phase.Admitted?
  {
    Unpack(w, g);
    NotOvertaken(w, s, g);
  }

  lemma LaterAdmitted(w: World, steps: seq<Step>, k: nat, g: Pid)
    requires steps != [] && Next(w, steps[0]).Some? && AdmittedAt(Next(w, steps[0]).value, steps[1..], k, g)
    ensures AdmittedAt(w, steps, k + 1, g)
  {
    assert steps[..k + 1] == [steps[0]] + steps[1..][..k];
    assert steps[..k + 1][1..] == steps[1..][..k];
  }

  /** Progress: once the tokens of the others leave room for its need, the process at the gate is admitted
      within two of its scans, however the others arrive, wait, end or die meanwhile. */
  lemma AdmittedOnceRoom(w: World, first: seq<Step>, later: seq<Step>, g: Pid)
    requires Inv(w) && w.gate == Some(g) && g in w.procs && Exec(w, first + later).Some? && Exec(w, first).Some?
    requires Die(g) !in first + later
    requires |Others(Exec(w, first).value, g)| + w.procs[g].need <= TOKENS
    requires Count(later, Try(g)) >= 2 * (TOKENS + 1)
    ensures exists k: nat :: AdmittedAt(w, first + later, k, g)
  {
    hide Next, GoodProc, Inv, Count, Others;
    ExecJoin(w, first, later);
    ExecInv(w, first);
    HoldersOnlyLeave(w, first, g);
    var w' := Exec(w, first).value;
    if k: nat :| AdmittedAt(w, first, k, g) {
      AdmittedBefore(w, first, later, k, g);
    } else {
      GateHolderAdmitted(w', later, g);
      var k: nat :| AdmittedAt(w', later, k, g);
      ExecJoin(w, first, later[..k]);
      assert (first + later)[..|first| + k] == first + later[..k];
      assert AdmittedAt(w, first + later, |first| + k, g);
    }
  }

  lemma AdmittedBefore(w: World, first: seq<Step>, later: seq<Step>, k: nat, g: Pid)
    requires AdmittedAt(w, first, k, g)
    ensures AdmittedAt(w, first + later, k, g)
  {
    assert (first + later)[..k] == first[..k];
  }

  /** In particular when every command that held tokens has ended. */
  lemma AdmittedOnceOthersEnd(w: World, first: seq<Step>, later: seq<Step>, g: Pid)
    requires Inv(w) && w.gate == Some(g) && Exec(w, first + later).Some? && Exec(w, first).Some?
    requires Die(g) !in first + later
    requires forall q | q != g && Held(w, q) != {} :: Held(Exec(w, first).value, q) == {}
    requires Count(later, Try(g)) >= 2 * (TOKENS + 1)
    ensures exists k: nat :: AdmittedAt(w, first + later, k, g)
  {
    hide Next, GoodProc, Inv, Count, Others;
    Unpack(w, g);
    ExecInv(w, first);
    HoldersOnlyLeave(w, first, g);
    if k: nat :| AdmittedAt(w, first, k, g) {
      AdmittedBefore(w, first, later, k, g);
    } else {
      NobodyElse(Exec(w, first).value, g);
      NeedWithin(w, g);
      AdmittedOnceRoom(w, first, later, g);
    }
  }

  lemma NeedWithin(w: World, g: Pid)
    requires g in w.procs && GoodProc(w, g)
    ensures w.procs[g].need <= TOKENS
  {}

  /** No earlier: whoever is admitted was left the room for its need by the others, in every run. */
  lemma AdmittedHasRoom(steps: seq<Step>, g: Pid)
    requires Exec(Quiet, steps).Some?
    requires var w := Exec(Quiet, steps).value; g in w.procs && Owned(w.procs[g])
    ensures Room(Exec(Quiet, steps).value, g)
  {
    hide TokensFor, Bytes, Below;
    ExecInv(Quiet, steps);
    var w := Exec(Quiet, steps).value;
    assert GoodProc(w, g);
    var held, others := w.procs[g].held, Others(w, g);
    assert held !! others;
    assert forall t | t in held + others :: t in Below(TOKENS);
    SubsetSize(held + others, Below(TOKENS));
  }

  lemma NobodyElse(w: World, g: Pid)
    requires Inv(w) && forall q | q != g :: Held(w, q) == {}
    ensures Others(w, g) == {}
  {
    forall t | t in w.tokens
      ensures w.tokens[t] == g
    {
      var q := w.tokens[t];
      assert GoodProc(w, q);
      assert t in Held(w, q);
    }
  }

  lemma {:induction false} ExecJoin(w: World, a: seq<Step>, b: seq<Step>)
    ensures Exec(w, a + b) == if Exec(w, a).None? then None else Exec(Exec(w, a).value, b)
    decreases a
  {
    if a == [] {
      assert a + b == b;
    } else {
      assert (a + b)[1..] == a[1..] + b;
      if Next(w, a[0]).Some? { ExecJoin(Next(w, a[0]).value, a[1..], b); }
    }
  }
}
