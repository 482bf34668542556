/** Runs of the driver: the files change, models are transformed and checked, verdicts are recorded. When a
    kept verdict is never stale, and when a check makes it so. */
module VerdictRuns {
  import opened Wrap
  import opened Verdicts

  /** `verilatorize(check=True)` between linking and saving: the manifest in memory, and the models to check. */
  datatype Pass = Pass(man: Manifest, models: set<string>)

  /** The files, the transformed copies and the manifest on disk; the entries a process has read, what it
      has checked, and the checks of a whole source that are under way. */
  datatype World = World(files: map<string, Text>, copies: set<string>, man: Manifest,
                         cache: map<string, Entry>, tried: set<(string, string)>, pass: Option<Pass>)

  const EMPTY := World(map[], {}, map[], map[], {}, None)

  // ---- the calls -------------------------------------------------------------------------------------

  ghost function Wanted(env: Env, w: World, models: seq<string>): set<string> {
    set d | d in w.files && ReachedFrom(SourcesOf(w.files, env.uses), models, d)
  }

  /** `verilatorize`, of some models and everything their hierarchies reach. */
  ghost function Verilatorized(env: Env, w: World, models: seq<string>, crashes: set<string>): World {
    var all := Wanted(env, w, models);
    w.(copies := CopiesAfter(env, w.files, w.copies, w.man, all, crashes),
       man := Relink(Retransformed(env, w.files, w.copies, w.man, all, crashes)))
  }

  /** It raises, once everything is saved, when a transform crashed. */
  ghost predicate Crashes(env: Env, w: World, models: seq<string>, crashes: set<string>) {
    exists d :: d in crashes && Redo(w.files, w.copies, w.man, Wanted(env, w, models), d)
  }

  /** Transformed, or over a transformed model, and nothing unsupported in the hierarchy. */
  predicate Checkable(e: Entry) { (e.kind == Transformed || e.onTransformed != {}) && e.kind != Unsupported && e.onUnsupported == {} }

  predicate Settled(e: Entry, config: string) { config in e.verdicts && e.verdicts[config].result != Errored }

  function WithVerdict(e: Entry, config: string, v: Verdict): Entry { e.(verdicts := e.verdicts[config := v]) }

  /** `_record` writes only to an entry of the same source and the same dependencies. */
  predicate Recorded(man: Manifest, m: string, e: Entry) { m in man && man[m].source == e.source && man[m].deps == e.deps }

  function Record(man: Manifest, m: string, e: Entry, config: string, v: Verdict): Manifest {
    if Recorded(man, m, e) then man[m := WithVerdict(man[m], config, v)] else man
  }

  /** The first part of `_ensure_one`: the entry is read once per process, after `verilatorize` of the model. */
  ghost function Prepared(env: Env, w: World, m: string, crashes: set<string>): World {
    if m in w.cache || m !in w.files then w else
    var v := Verilatorized(env, w, [m], crashes);
    if m in v.man && !Crashes(env, w, [m], crashes) then v.(cache := w.cache[m := v.man[m]]) else v
  }

  /** It then checks, unless the entry needs none, has its verdict, or was checked by this process. */
  ghost predicate Checks(w: World, m: string, config: string) {
    m in w.files && m in w.cache && Checkable(w.cache[m]) && (m, config) !in w.tried && !Settled(w.cache[m], config)
  }

  /** The check compares the files as they are. */
  ghost function Checked(env: Env, w: World, m: string, config: string, result: Result): World
    requires Checks(w, m, config)
  {
    var v := Verdict(result, SubjectNow(w.files, env.uses, m));
    w.(tried := w.tried + {(m, config)}, cache := w.cache[m := WithVerdict(w.cache[m], config, v)],
       man := Record(w.man, m, w.cache[m], config, v))
  }

  ghost function Ensured(env: Env, w: World, m: string, config: string, crashes: set<string>, result: Result): World {
    var p := Prepared(env, w, m, crashes);
    if Checks(p, m, config) then Checked(env, p, m, config, result) else p
  }

  /** `verilatorize(check=True)` links and saves; unless that raises, `_check_all` then works on the manifest
      in memory. */
  ghost function PassBegun(env: Env, w: World, models: seq<string>, crashes: set<string>): World {
    var v := Verilatorized(env, w, models, crashes);
    if Crashes(env, w, models, crashes) then v else v.(pass := Some(Pass(v.man, Wanted(env, w, models))))
  }

  /** One of its checks: of a gated model, and not of a configuration that has its verdict. */
  ghost predicate PassChecks(w: World, m: string, config: string) {
    && m in w.files && w.pass.Some? && m in w.pass.value.models && m in w.pass.value.man
    && Checkable(w.pass.value.man[m]) && !Settled(w.pass.value.man[m], config)
  }

  /** It compares the files as they are by then. */
  ghost function PassChecked(env: Env, w: World, m: string, config: string, result: Result): World
    requires PassChecks(w, m, config)
  {
    var man := w.pass.value.man;
    var v := Verdict(result, SubjectNow(w.files, env.uses, m));
    w.(pass := Some(w.pass.value.(man := man[m := WithVerdict(man[m], config, v)])))
  }

  /** The manifest is saved, after the last check or when one was interrupted. */
  function PassEnded(w: World): World {
    if w.pass.Some? then w.(man := w.pass.value.man, pass := None) else w
  }

  /** Any change of the files from outside, copies lost, a new process, and the steps of the driver's calls:
      between any two steps anything else may happen. `Ensure` is all of `_ensure_one`, or what is left of it
      after `Prepare`. */
  datatype Move =
    | Outside(files: map<string, Text>)
    | LoseCopies(copies: set<string>)
    | Restart
    | Batch(models: seq<string>, crashes: set<string>)
    | Prepare(m: string, crashes: set<string>)
    | Ensure(m: string, config: string, crashes: set<string>, result: Result)
    | BeginPass(models: seq<string>, crashes: set<string>)
    | PassCheck(m: string, config: string, result: Result)
    | EndPass

  ghost function Next(env: Env, w: World, s: Move): World {
    match s
    case Outside(files) => w.(files := files)
    case LoseCopies(lost) => w.(copies := w.copies - lost)
    case Restart => w.(cache := map[], tried := {}, pass := None)
    case Batch(models, crashes) => Verilatorized(env, w, models, crashes)
    case Prepare(m, crashes) => Prepared(env, w, m, crashes)
    case Ensure(m, config, crashes, result) => Ensured(env, w, m, config, crashes, result)
    case BeginPass(models, crashes) => PassBegun(env, w, models, crashes)
    case PassCheck(m, config, result) => if PassChecks(w, m, config) then PassChecked(env, w, m, config, result) else w
    case EndPass => PassEnded(w)
  }

  ghost function Run(env: Env, w: World, moves: seq<Move>): World
    decreases |moves|
  {
    if moves == [] then w else Run(env, Next(env, w, moves[0]), moves[1..])
  }

  // ---- the condition ---------------------------------------------------------------------------------

  /** What a caller can test before a check: the model and every model it reaches in the files have exactly the
      hashes of the entry that the verdict is for. */
  ghost predicate CheckCurrent(env: Env, files: map<string, Text>, m: string, e: Entry) {
    m in files && e.deps.Some? && SubjectNow(files, env.uses, m) == About(e)
  }

  /** What every move keeps. */
  ghost predicate Inv(env: Env, w: World) {
    && EntriesOk(w.man, env.uses, env.kind) && Linked(w.man)
    && (forall m | m in w.cache :: w.cache[m].deps.Some?)
    && (w.pass.Some? ==> EntriesOk(w.pass.value.man, env.uses, env.kind) && Linked(w.pass.value.man))
  }

  /** Every verdict, on disk and in memory, is about the entry that holds it. */
  ghost predicate AboutThemselves(w: World) { VerdictsOk(w.man) && (w.pass.Some? ==> VerdictsOk(w.pass.value.man)) }

  /** The move makes no check, its verdict is not recorded, or the condition is met. */
  ghost predicate Fine(env: Env, w: World, s: Move) {
    match s
    case Ensure(m, config, crashes, _) =>
      var p := Prepared(env, w, m, crashes);
      Checks(p, m, config) && Recorded(p.man, m, p.cache[m]) ==> CheckCurrent(env, p.files, m, p.cache[m])
    case PassCheck(m, config, _) => PassChecks(w, m, config) ==> CheckCurrent(env, w.files, m, w.pass.value.man[m])
    case _ => true
  }

  ghost predicate AllFine(env: Env, w: World, moves: seq<Move>)
    decreases |moves|
  {
    moves == [] || (Fine(env, w, moves[0]) && AllFine(env, Next(env, w, moves[0]), moves[1..]))
  }

  // ---- what every move keeps -------------------------------------------------------------------------

  lemma RetransformedOk(env: Env, files: map<string, Text>, copies: set<string>, man: Manifest, models: set<string>, crashes: set<string>)
    requires EntriesOk(man, env.uses, env.kind)
    ensures var r := Retransformed(env, files, copies, man, models, crashes);
      EntriesOk(r, env.uses, env.kind) && (VerdictsOk(man) ==> VerdictsOk(r))
  {}

  lemma RelinkOk(env: Env, man: Manifest)
    requires EntriesOk(man, env.uses, env.kind)
    ensures EntriesOk(Relink(man), env.uses, env.kind) && Linked(Relink(man)) && (VerdictsOk(man) ==> VerdictsOk(Relink(man)))
  {
    hide Relink, Linked;
    RelinkIs(man);
    assert forall m | m in man :: SameModel(man[m], Relink(man)[m]) && KeptIfSame(man[m], Relink(man)[m]);
  }

  lemma VerilatorizedInv(env: Env, w: World, models: seq<string>, crashes: set<string>)
    requires Inv(env, w)
    ensures var v := Verilatorized(env, w, models, crashes);
      Inv(env, v) && v.pass == w.pass && (VerdictsOk(w.man) ==> VerdictsOk(v.man)) && forall m | m in v.man :: v.man[m].deps.Some?
  {
    hide Relink, Retransformed, EntriesOk, VerdictsOk, Wanted, CopiesAfter;
    var all := Wanted(env, w, models);
    RetransformedOk(env, w.files, w.copies, w.man, all, crashes);
    RelinkOk(env, Retransformed(env, w.files, w.copies, w.man, all, crashes));
  }

  lemma PreparedInv(env: Env, w: World, m: string, crashes: set<string>)
    requires Inv(env, w)
    ensures var p := Prepared(env, w, m, crashes); Inv(env, p) && p.pass == w.pass && (VerdictsOk(w.man) ==> VerdictsOk(p.man))
  {
    hide Verilatorized, EntriesOk, Linked, VerdictsOk, Crashes;
    VerilatorizedInv(env, w, [m], crashes);
  }

  /** A verdict in an entry changes none of its hierarchy facts. */
  lemma RecordedInv(env: Env, man: Manifest, m: string, config: string, v: Verdict)
    requires EntriesOk(man, env.uses, env.kind) && Linked(man) && m in man
    ensures var r := man[m := WithVerdict(man[m], config, v)]; EntriesOk(r, env.uses, env.kind) && Linked(r)
  {
    var r := man[m := WithVerdict(man[m], config, v)];
    assert forall k | k in r :: SameModel(r[k], man[k]);
    hide Below;
    forall k | k in r
      ensures LinkedEntry(r, k, r[k])
    {
      LinkedIn(man, k);
      SameLinks(r, man, k, man[k]);
      SameFacts(r, k, man[k], r[k]);
    }
  }

  lemma LinkedIn(man: Manifest, k: string)
    requires Linked(man) && k in man
    ensures LinkedEntry(man, k, man[k])
  {}

  lemma SameFacts(man: Manifest, k: string, a: Entry, b: Entry)
    requires LinkedEntry(man, k, a) && b.deps == a.deps && b.onTransformed == a.onTransformed && b.onUnsupported == a.onUnsupported
    ensures LinkedEntry(man, k, b)
  {
    hide Below;
  }

  lemma CheckedInv(env: Env, w: World, m: string, config: string, result: Result)
    requires Inv(env, w) && Checks(w, m, config)
    ensures Inv(env, Checked(env, w, m, config, result))
  {
    hide SubjectNow, EntriesOk, Linked;
    var v := Verdict(result, SubjectNow(w.files, env.uses, m));
    if Recorded(w.man, m, w.cache[m]) { RecordedInv(env, w.man, m, config, v); }
  }

  lemma PassInv(env: Env, w: World, s: Move)
    requires Inv(env, w) && (s.BeginPass? || s.PassCheck? || s.EndPass?)
    ensures Inv(env, Next(env, w, s))
  {
    hide EntriesOk, Linked, Verilatorized, Crashes, Wanted, SubjectNow;
    match s
    case BeginPass(models, crashes) => VerilatorizedInv(env, w, models, crashes);
    case PassCheck(m, config, result) =>
      if PassChecks(w, m, config) {
        RecordedInv(env, w.pass.value.man, m, config, Verdict(result, SubjectNow(w.files, env.uses, m)));
      }
    case EndPass =>
  }

  lemma NextInv(env: Env, w: World, s: Move)
    requires Inv(env, w)
    ensures Inv(env, Next(env, w, s))
  {
    hide EntriesOk, Linked, Verilatorized, Prepared, Checked, Checks, Wanted, Crashes, SubjectNow, PassBegun, PassChecked, PassEnded;
    match s
    case Batch(models, crashes) => VerilatorizedInv(env, w, models, crashes);
    case Prepare(m, crashes) => PreparedInv(env, w, m, crashes);
    case Ensure(m, config, crashes, result) =>
      PreparedInv(env, w, m, crashes);
      var p := Prepared(env, w, m, crashes);
      if Checks(p, m, config) { CheckedInv(env, p, m, config, result); }
    case BeginPass(_, _) => PassInv(env, w, s);
    case PassCheck(_, _, _) => PassInv(env, w, s);
    case EndPass => PassInv(env, w, s);
    case _ =>
  }

  // ---- never stale -----------------------------------------------------------------------------------

  /** A check under the condition leaves every verdict about its entry; so does every other move. */
  lemma NextVerdicts(env: Env, w: World, s: Move)
    requires Inv(env, w) && AboutThemselves(w) && Fine(env, w, s)
    ensures AboutThemselves(Next(env, w, s))
  {
    hide Verilatorized, EntriesOk, Linked, VerdictsOk, Prepared, Wanted, Crashes, Checked, CheckCurrent, PassChecked;
    match s
    case Batch(models, crashes) => VerilatorizedInv(env, w, models, crashes);
    case Prepare(m, crashes) => PreparedInv(env, w, m, crashes);
    case Ensure(m, config, crashes, result) =>
      PreparedInv(env, w, m, crashes);
      var p := Prepared(env, w, m, crashes);
      if Checks(p, m, config) { CheckedVerdicts(env, p, m, config, result); }
    case BeginPass(models, crashes) => VerilatorizedInv(env, w, models, crashes);
    case PassCheck(m, config, result) => if PassChecks(w, m, config) { PassVerdicts(env, w, m, config, result); }
    case _ =>
  }

  lemma CheckedVerdicts(env: Env, w: World, m: string, config: string, result: Result)
    requires VerdictsOk(w.man) && Checks(w, m, config)
    requires Recorded(w.man, m, w.cache[m]) ==> CheckCurrent(env, w.files, m, w.cache[m])
    ensures VerdictsOk(Checked(env, w, m, config, result).man) && Checked(env, w, m, config, result).pass == w.pass
  {
    hide SubjectNow;
  }

  lemma PassVerdicts(env: Env, w: World, m: string, config: string, result: Result)
    requires PassChecks(w, m, config) && VerdictsOk(w.pass.value.man) && CheckCurrent(env, w.files, m, w.pass.value.man[m])
    ensures var c := PassChecked(env, w, m, config, result); c.man == w.man && c.pass.Some? && VerdictsOk(c.pass.value.man)
  {
    hide SubjectNow;
  }

  lemma {:induction false} RunKeeps(env: Env, w: World, moves: seq<Move>)
    requires Inv(env, w) && AboutThemselves(w) && AllFine(env, w, moves)
    ensures Inv(env, Run(env, w, moves)) && AboutThemselves(Run(env, w, moves))
    decreases |moves|
  {
    hide Inv, AboutThemselves, Next, Fine;
    if moves != [] {
      NextInv(env, w, moves[0]);
      NextVerdicts(env, w, moves[0]);
      RunKeeps(env, Next(env, w, moves[0]), moves[1..]);
    }
  }

  lemma EmptyInv(env: Env)
    ensures Inv(env, EMPTY) && AboutThemselves(EMPTY)
  {}

  /** No transform below `m` crashed. */
  ghost predicate AllPresent(env: Env, w: World, m: string) { forall d | Reaches(SourcesOf(w.files, env.uses), m, d) :: d in w.man }

  /** What was asked for is current afterwards, with everything it reaches that did not crash. */
  lemma NowCurrent(env: Env, w: World, models: seq<string>, crashes: set<string>, m: string)
    requires m in Wanted(env, w, models) && AllPresent(env, Verilatorized(env, w, models, crashes), m)
    ensures AllCurrent(w.files, env.uses, Verilatorized(env, w, models, crashes).man, m)
  {
    hide Reaches, Relink, Retransformed;
    var g, all := SourcesOf(w.files, env.uses), Wanted(env, w, models);
    var r := Retransformed(env, w.files, w.copies, w.man, all, crashes);
    RelinkIs(r);
    var a :| a in models && Reaches(g, a, m);
    forall d | Reaches(g, m, d)
      ensures UpToDate(w.files, Relink(r), d)
    {
      ReachOn(g, a, m, d);
      ReachedFiles(g, models);
      assert ReachedFrom(g, models, d);
      assert d in all;
      RedoneCurrent(env, w, all, crashes, d);
      assert SameModel(r[d], Relink(r)[d]);
    }
  }

  lemma RedoneCurrent(env: Env, w: World, all: set<string>, crashes: set<string>, d: string)
    requires d in all && d in w.files && d in Retransformed(env, w.files, w.copies, w.man, all, crashes)
    ensures Retransformed(env, w.files, w.copies, w.man, all, crashes)[d].source == w.files[d]
  {}

  /** Over every run in which each recorded check meets the condition: after `verilatorize` of models that reach
      `m`, every verdict left for `m` was computed for the present source of `m` and of all it reaches, and for
      nothing else if and only if no model below it was removed. */
  lemma NeverStale(env: Env, moves: seq<Move>, models: seq<string>, crashes: set<string>, m: string, config: string)
    requires AllFine(env, EMPTY, moves)
    requires var w := Run(env, EMPTY, moves); var v := Verilatorized(env, w, models, crashes);
      m in Wanted(env, w, models) && AllPresent(env, v, m) && m in v.man && config in v.man[m].verdicts
    ensures var v := Verilatorized(env, Run(env, EMPTY, moves), models, crashes);
      var about := v.man[m].verdicts[config].about;
      && Agrees(v.files, env.uses, m, about)
      && (about == SubjectNow(v.files, env.uses, m) <==> NoneRemoved(v.files, v.man, m))
  {
    var w := Run(env, EMPTY, moves);
    EmptyInv(env);
    RunKeeps(env, EMPTY, moves);
    hide Run, AllFine;
    LeftExact(env, w, models, crashes, m, config);
  }

  lemma LeftExact(env: Env, w: World, models: seq<string>, crashes: set<string>, m: string, config: string)
    requires Inv(env, w) && VerdictsOk(w.man)
    requires var v := Verilatorized(env, w, models, crashes);
      m in Wanted(env, w, models) && AllPresent(env, v, m) && m in v.man && config in v.man[m].verdicts
    ensures var v := Verilatorized(env, w, models, crashes);
      var about := v.man[m].verdicts[config].about;
      && Agrees(v.files, env.uses, m, about)
      && (about == SubjectNow(v.files, env.uses, m) <==> NoneRemoved(v.files, v.man, m))
  {
    var v := Verilatorized(env, w, models, crashes);
    VerilatorizedInv(env, w, models, crashes);
    NowCurrent(env, w, models, crashes, m);
    assert v.files == w.files;
    hide Verilatorized, AllPresent, AllCurrent, EntriesOk, Linked, Agrees, SubjectNow, NoneRemoved;
    EntryExact(v.files, env, v.man, m);
  }

  // ---- the condition is exact ------------------------------------------------------------------------

  /** Had the files become these and `verilatorize` been run on `m`, a verdict left for `config` would be about
      what a check would read then: unless a transform crashed or a model below `m` was removed. */
  ghost predicate SafeAt(env: Env, w: World, m: string, config: string, files: map<string, Text>, crashes: set<string>) {
    var v := Verilatorized(env, w.(files := files), [m], crashes);
    m in files && AllPresent(env, v, m) && m in v.man && NoneRemoved(files, v.man, m) && config in v.man[m].verdicts
    ==> v.man[m].verdicts[config].about == SubjectNow(files, env.uses, m)
  }

  ghost predicate Safe(env: Env, w: World, m: string, config: string) {
    forall files, crashes :: SafeAt(env, w, m, config, files, crashes)
  }

  /** The copies that the check compiles are on disk. */
  ghost predicate CopiesThere(w: World, m: string) {
    forall d | d in w.man && (d == m || Below(w.man, m, d)) && w.man[d].kind == Transformed :: d in w.copies
  }

  /** The files as the entry records them. */
  function FilesOf(e: Entry, m: string): map<string, Text>
    requires e.deps.Some?
  {
    e.deps.value[m := e.source]
  }

  /** A recorded check is safe, whatever happens to the files afterwards, if and only if the condition was met. */
  lemma CheckExact(env: Env, w: World, m: string, config: string, result: Result)
    requires Inv(env, w) && VerdictsOk(w.man) && Checks(w, m, config) && Recorded(w.man, m, w.cache[m]) && CopiesThere(w, m)
    ensures CheckCurrent(env, w.files, m, w.cache[m]) <==> Safe(env, Checked(env, w, m, config, result), m, config)
  {
    var c := Checked(env, w, m, config, result);
    CheckedInv(env, w, m, config, result);
    if CheckCurrent(env, w.files, m, w.cache[m]) {
      CheckedVerdicts(env, w, m, config, result);
      hide Checked, Checks, CheckCurrent, VerdictsOk, Inv;
      forall files, crashes
        ensures SafeAt(env, c, m, config, files, crashes)
      {
        SafeLater(env, c, m, config, files, crashes);
      }
    } else {
      hide Inv, VerdictsOk, CopiesThere, SafeAt;
      Restored(env, w, m, config, result);
    }
  }

  /** The same of a check of a pass, once its manifest is saved: an edit since the models were linked is what
      the condition is about. */
  lemma PassExact(env: Env, w: World, m: string, config: string, result: Result)
    requires Inv(env, w) && AboutThemselves(w) && PassChecks(w, m, config) && CopiesThere(w.(man := w.pass.value.man), m)
    ensures CheckCurrent(env, w.files, m, w.pass.value.man[m])
            <==> Safe(env, PassEnded(PassChecked(env, w, m, config, result)), m, config)
  {
    hide Linked, EntriesOk, VerdictsOk, Safe, SubjectNow, CheckCurrent, CopiesThere;
    var man := w.pass.value.man;
    var u := World(w.files, w.copies, man, map[m := man[m]], {}, None);
    LinkedIn(man, m);
    CopiesStill(w.(man := man), u, m);
    CheckExact(env, u, m, config, result);
    SafeSame(env, Checked(env, u, m, config, result), PassEnded(PassChecked(env, w, m, config, result)), m, config);
  }

  /** Safety is a matter of the manifest and the copies. */
  lemma SafeSame(env: Env, a: World, b: World, m: string, config: string)
    requires a.man == b.man && a.copies == b.copies
    ensures Safe(env, a, m, config) <==> Safe(env, b, m, config)
  {
    hide AllPresent, NoneRemoved, SubjectNow;
    forall files, crashes
      ensures SafeAt(env, a, m, config, files, crashes) <==> SafeAt(env, b, m, config, files, crashes)
    {
      var x, y := Verilatorized(env, a.(files := files), [m], crashes), Verilatorized(env, b.(files := files), [m], crashes);
      assert x.man == y.man && x.files == y.files;
      PresentSame(env, x, y, m);
    }
  }

  lemma PresentSame(env: Env, a: World, b: World, m: string)
    requires a.man == b.man && a.files == b.files
    ensures AllPresent(env, a, m) <==> AllPresent(env, b, m)
  {}

  lemma SafeLater(env: Env, w: World, m: string, config: string, files: map<string, Text>, crashes: set<string>)
    requires Inv(env, w) && VerdictsOk(w.man)
    ensures SafeAt(env, w, m, config, files, crashes)
  {
    hide Verilatorized, AllPresent, SubjectNow, NoneRemoved, VerdictsOk, Agrees, EntriesOk, Linked, Wanted;
    var u := w.(files := files);
    var v := Verilatorized(env, u, [m], crashes);
    SameFiles(env, u, [m], crashes);
    if m in files && AllPresent(env, v, m) && m in v.man && NoneRemoved(files, v.man, m) && config in v.man[m].verdicts {
      MineWanted(env, u, m);
      LeftExact(env, u, [m], crashes, m, config);
    }
  }

  lemma SameFiles(env: Env, w: World, models: seq<string>, crashes: set<string>)
    ensures Verilatorized(env, w, models, crashes).files == w.files
  {}

  lemma MineWanted(env: Env, w: World, m: string)
    requires m in w.files
    ensures m in Wanted(env, w, [m])
  {
    StartReached(SourcesOf(w.files, env.uses), [m]);
  }

  /** Two linked manifests of the same models record the same dependencies. */
  lemma SameDeps(a: Manifest, b: Manifest, m: string)
    requires a.Keys == b.Keys && (forall k | k in a :: SameModel(a[k], b[k])) && m in a && LinkedEntry(a, m, a[m]) && LinkedEntry(b, m, b[m])
    ensures a[m].deps == b[m].deps
  {
    SameUses(a, b);
    BelowKnown(a, m);
    hide Below;
    assert forall d | d in a :: SameModel(a[d], b[d]);
    assert a[m].deps.value == b[m].deps.value;
  }

  /** Nothing is redone when the files are as the entry records them. */
  lemma NothingRedone(env: Env, w: World, m: string)
    requires m in w.man && LinkedEntry(w.man, m, w.man[m]) && CopiesThere(w, m) && w.files == FilesOf(w.man[m], m)
    ensures Retransformed(env, w.files, w.copies, w.man, Wanted(env, w, [m]), {}) == w.man
  {
    hide Below, ReachedFrom;
    BelowKnown(w.man, m);
    forall d | d in w.files
      ensures Current(w.files, w.copies, w.man, d)
    {}
  }

  /** With the files as its entry records them, `verilatorize` leaves a model's entry as it is. */
  lemma Untouched(env: Env, w: World, m: string)
    requires Inv(env, w) && m in w.man && w.man[m].deps.Some? && CopiesThere(w, m) && w.files == FilesOf(w.man[m], m)
    ensures var v := Verilatorized(env, w, [m], {});
      && v.files == w.files && v.man.Keys == w.man.Keys && m in v.man && m in w.files
      && About(v.man[m]) == About(w.man[m]) && v.man[m].verdicts == w.man[m].verdicts
      && Inv(env, v) && LinkedEntry(v.man, m, v.man[m]) && LinkedEntry(w.man, m, w.man[m])
  {
    VerilatorizedInv(env, w, [m], {});
    assert LinkedEntry(w.man, m, w.man[m]);
    NothingRedone(env, w, m);
    RelinkIs(w.man);
    hide EntriesOk, Wanted, Retransformed, CopiesAfter, Relink, LinkedEntry, CopiesThere, SameModel;
    var v := Verilatorized(env, w, [m], {});
    assert v.man == Relink(w.man);
    assert LinkedEntry(v.man, m, v.man[m]);
    SameDeps(w.man, v.man, m);
    SameSource(w.man[m], v.man[m]);
    assert KeptIfSame(w.man[m], v.man[m]);
  }

  lemma SameSource(a: Entry, b: Entry)
    requires SameModel(a, b)
    ensures a.source == b.source
  {}

  /** What is left when the files have become again what the entry records. */
  lemma Restored(env: Env, w: World, m: string, config: string, result: Result)
    requires Inv(env, w) && Checks(w, m, config) && Recorded(w.man, m, w.cache[m]) && CopiesThere(w, m)
    requires !CheckCurrent(env, w.files, m, w.cache[m])
    ensures !SafeAt(env, Checked(env, w, m, config, result), m, config, FilesOf(w.cache[m], m), {})
  {
    InCache(env, w, m);
    hide SubjectNow, CopiesThere, Checked, SafeAt, LinkedEntry, Inv, SameModel, Verilatorized;
    var c := Checked(env, w, m, config, result);
    CheckedInv(env, w, m, config, result);
    CheckedEntry(env, w, m, config, result);
    CopiesStill(w, c, m);
    var u := c.(files := FilesOf(w.cache[m], m));
    OtherFiles(env, c, u, m);
    Untouched(env, u, m);
    StaleThen(env, u, m, config, SubjectNow(w.files, env.uses, m));
    SameSafe(env, c, u, m, config);
  }

  lemma InCache(env: Env, w: World, m: string)
    requires Inv(env, w) && m in w.cache
    ensures w.cache[m].deps.Some?
  {}

  lemma OtherFiles(env: Env, c: World, u: World, m: string)
    requires CopiesThere(c, m) && Inv(env, c) && u == c.(files := u.files)
    ensures CopiesThere(u, m) && Inv(env, u)
  {}

  lemma SameSafe(env: Env, c: World, u: World, m: string, config: string)
    requires u == c.(files := u.files)
    ensures SafeAt(env, c, m, config, u.files, {}) == SafeAt(env, u, m, config, u.files, {})
  {
    hide Verilatorized;
    assert u.(files := u.files) == u;
  }

  lemma CheckedEntry(env: Env, w: World, m: string, config: string, result: Result)
    requires Checks(w, m, config) && Recorded(w.man, m, w.cache[m]) && w.cache[m].deps.Some?
    ensures var c := Checked(env, w, m, config, result);
      && c.copies == w.copies && c.man.Keys == w.man.Keys && (forall k | k in w.man :: SameModel(w.man[k], c.man[k]))
      && About(c.man[m]) == About(w.cache[m]) && c.man[m].deps.Some?
      && config in c.man[m].verdicts && c.man[m].verdicts[config].about == SubjectNow(w.files, env.uses, m)
  {
    hide SubjectNow;
  }

  lemma StaleThen(env: Env, w: World, m: string, config: string, about: Subject)
    requires Inv(env, w) && m in w.man && w.man[m].deps.Some? && CopiesThere(w, m) && w.files == FilesOf(w.man[m], m)
    requires config in w.man[m].verdicts && w.man[m].verdicts[config].about == about != About(w.man[m])
    ensures !SafeAt(env, w, m, config, w.files, {})
  {
    var v := Verilatorized(env, w, [m], {});
    Untouched(env, w, m);
    StillThere(env, w, v, m);
    NowCurrent(env, w, [m], {}, m);
    hide Verilatorized, EntriesOk, Wanted, LinkedEntry, CopiesThere, AllCurrent, AllPresent, NoneRemoved, SubjectNow, Agrees, FilesOf;
    EntryExact(w.files, env, v.man, m);
    assert w.(files := w.files) == w;
  }

  lemma CopiesStill(w: World, c: World, m: string)
    requires CopiesThere(w, m) && c.copies == w.copies && w.man.Keys == c.man.Keys && forall k | k in w.man :: SameModel(w.man[k], c.man[k])
    ensures CopiesThere(c, m)
  {
    SameUses(w.man, c.man);
    hide Below;
    assert forall k | k in w.man :: SameModel(w.man[k], c.man[k]);
  }

  lemma StillThere(env: Env, u: World, v: World, m: string)
    requires m in u.man && LinkedEntry(u.man, m, u.man[m])
    requires v.man.Keys == u.man.Keys && v.files == u.files == FilesOf(u.man[m], m)
    requires LinkedEntry(u.man, m, u.man[m]) && m in v.man && LinkedEntry(v.man, m, v.man[m]) && v.man[m].deps == u.man[m].deps
    ensures m in Wanted(env, u, [m]) && AllPresent(env, v, m) && NoneRemoved(u.files, v.man, m)
  {
    var g := SourcesOf(u.files, env.uses);
    StartReached(g, [m]);
    ReachedFiles(g, [m]);
    BelowKnown(u.man, m);
    hide Below;
    forall d | Reaches(g, m, d)
      ensures d in v.man
    {
      assert ReachedFrom(g, [m], d) by { assert m in [m]; }
    }
  }

  // ---- edited, checked, edited back ------------------------------------------------------------------

  const M := "m"

  /** A source in which nothing instantiates anything. */
  function Alone(): Env { Env(t => [], t => Transformed) }

  function Source(text: Text): map<string, Text> { map[M := text] }

  function Entered(vs: map<string, Verdict>): Entry { Entry("A", Transformed, [], Some(map[]), {}, {}, vs, map[]) }

  /** One configuration is checked; the file is edited, another configuration is checked by the same process,
      and the file is edited back. */
  function EditAndBack(): seq<Move> {
    [Outside(Source("A")), Ensure(M, "default", {}, Passed), Outside(Source("B")), Ensure(M, "X=1", {}, Passed), Outside(Source("A"))]
  }

  lemma ReachAlone(g: Graph, start: seq<string>, d: string)
    requires forall m | m in g :: g[m] == []
    ensures ReachedFrom(g, start, d) <==> d in start && d in g
  {
    StartReached(g, start);
    if ReachedFrom(g, start, d) {
      var a :| a in start && Reaches(g, a, d);
      var p :| Walk(g, p) && p[0] == a && p[|p| - 1] == d;
      assert |p| > 1 ==> Step(g, p[0], p[1]);
    }
  }

  lemma SubjectAlone(text: Text)
    ensures SubjectNow(Source(text), Alone().uses, M) == Subject(text, map[])
  {
    var g := SourcesOf(Source(text), Alone().uses);
    forall d
      ensures !Beyond(g, M, d)
    {
      if M in g { ReachAlone(g, g[M], d); }
    }
  }

  lemma BelowAlone(man: Manifest)
    requires forall m | m in man :: man[m].uses == []
    ensures forall m, d :: !Below(man, m, d)
  {
    forall m, d | m in man
      ensures !ReachedFrom(UsesOf(man), man[m].uses, d)
    {
      ReachAlone(UsesOf(man), [], d);
    }
  }

  lemma WantedAlone(w: World, text: Text)
    requires w.files == Source(text)
    ensures Wanted(Alone(), w, [M]) == {M}
  {
    hide ReachedFrom;
    var g := SourcesOf(w.files, Alone().uses);
    forall d
      ensures ReachedFrom(g, [M], d) <==> d == M
    {
      ReachAlone(g, [M], d);
    }
  }

  /** `verilatorize` of the unedited source: the entry is made once, and then left. */
  lemma AloneAgain(w: World, vs: map<string, Verdict>)
    requires w.files == Source("A")
    requires (w.man == map[] && vs == map[]) || (w.man == map[M := Entered(vs)] && w.copies == {M})
    ensures var v := Verilatorized(Alone(), w, [M], {}); v.man == map[M := Entered(vs)] && M in v.copies
    ensures w.man == map[] && w.copies == {} ==> Verilatorized(Alone(), w, [M], {}).copies == {M}
  {
    WantedAlone(w, "A");
    RetransformedAlone(w, vs);
    var e := if w.man == map[] then Fresh(Alone(), "A") else Entered(vs);
    RelinkAlone(e, vs);
    hide Wanted, Relink, Retransformed, CopiesAfter;
    var v := Verilatorized(Alone(), w, [M], {});
    assert v.man == Relink(map[M := e]);
    assert v.copies == CopiesAfter(Alone(), w.files, w.copies, w.man, {M}, {});
  }

  lemma RetransformedAlone(w: World, vs: map<string, Verdict>)
    requires w.files == Source("A")
    requires (w.man == map[] && vs == map[]) || (w.man == map[M := Entered(vs)] && w.copies == {M})
    ensures Retransformed(Alone(), w.files, w.copies, w.man, {M}, {}) == map[M := if w.man == map[] then Fresh(Alone(), "A") else Entered(vs)]
    ensures var cs := CopiesAfter(Alone(), w.files, w.copies, w.man, {M}, {}); M in cs && (w.copies == {} ==> cs == {M})
  {}

  lemma RelinkAlone(e: Entry, vs: map<string, Verdict>)
    requires e == Entered(vs) || (e == Fresh(Alone(), "A") && vs == map[])
    ensures Relink(map[M := e]) == map[M := Entered(vs)]
  {
    var r := map[M := e];
    BelowAlone(r);
    RelinkedAlone(e, vs);
    hide Below, Relinked;
    assert (set d | d in r && Below(r, M, d)) == {};
  }

  lemma RelinkedAlone(e: Entry, vs: map<string, Verdict>)
    requires e == Entered(vs) || (e == Fresh(Alone(), "A") && vs == map[])
    ensures Relinked(map[M := e], M, {}) == Entered(vs)
  {
    NoDeps(map[M := e], {});
  }

  lemma NoDeps(man: Manifest, seen: set<string>)
    requires seen == {}
    ensures DepsKey(man, seen) == map[] && forall k :: OfKind(man, seen, k) == {}
  {}

  /** The verdict of the second configuration, of a source that is no more, is kept by `verilatorize`. */
  lemma EditedBackIsStale()
    ensures var v := Verilatorized(Alone(), Run(Alone(), EMPTY, EditAndBack()), [M], {});
      && v.files == Source("A") && M in v.man && "X=1" in v.man[M].verdicts && UpToDate(v.files, v.man, M)
      && v.man[M].verdicts["X=1"].about == Subject("B", map[])
      && !Agrees(v.files, Alone().uses, M, v.man[M].verdicts["X=1"].about)
  {
    hide Verilatorized, SubjectNow, Beyond, Run;
    var env, moves := Alone(), EditAndBack();
    var w1 := Next(env, EMPTY, moves[0]);
    var v1 := Verdict(Passed, Subject("A", map[]));
    var w2 := World(Source("A"), {M}, map[M := Entered(map["default" := v1])], map[M := Entered(map["default" := v1])], {(M, "default")}, None);
    FirstCheck(w1, w2);
    var w3 := Next(env, w2, moves[2]);
    var v2 := Verdict(Passed, Subject("B", map[]));
    var both := map["default" := v1, "X=1" := v2];
    var w4 := w3.(man := map[M := Entered(both)], cache := map[M := Entered(both)], tried := {(M, "default"), (M, "X=1")});
    SecondCheck(w3, w4);
    var w5 := Next(env, w4, moves[4]);
    FiveMoves(env, EMPTY, moves, w1, w2, w3, w4, w5);
    AloneAgain(w5, both);
    VerilatorizedFiles(env, w5);
  }

  lemma VerilatorizedFiles(env: Env, w: World)
    ensures Verilatorized(env, w, [M], {}).files == w.files
  {}

  lemma NoCrash(env: Env, w: World)
    ensures !Crashes(env, w, [M], {})
  {}

  lemma FirstCheck(w1: World, w2: World)
    requires w1 == EMPTY.(files := Source("A"))
    requires var e := Entered(map["default" := Verdict(Passed, Subject("A", map[]))]);
      w2 == World(Source("A"), {M}, map[M := e], map[M := e], {(M, "default")}, None)
    ensures Next(Alone(), w1, Ensure(M, "default", {}, Passed)) == w2
  {
    AloneAgain(w1, map[]);
    VerilatorizedRest(w1);
    NoCrash(Alone(), w1);
    SubjectAlone("A");
    hide Verilatorized, SubjectNow, Crashes;
    var p := Prepared(Alone(), w1, M, {});
    assert p == World(Source("A"), {M}, map[M := Entered(map[])], map[M := Entered(map[])], {}, None);
  }

  lemma VerilatorizedRest(w: World)
    ensures var v := Verilatorized(Alone(), w, [M], {}); v.files == w.files && v.cache == w.cache && v.tried == w.tried && v.pass == w.pass
  {}

  lemma SecondCheck(w3: World, w4: World)
    requires var e := Entered(map["default" := Verdict(Passed, Subject("A", map[]))]);
      w3 == World(Source("B"), {M}, map[M := e], map[M := e], {(M, "default")}, None)
    requires var e := Entered(map["default" := Verdict(Passed, Subject("A", map[])), "X=1" := Verdict(Passed, Subject("B", map[]))]);
      w4 == w3.(man := map[M := e], cache := map[M := e], tried := {(M, "default"), (M, "X=1")})
    ensures Next(Alone(), w3, Ensure(M, "X=1", {}, Passed)) == w4
  {
    SubjectAlone("B");
    hide Verilatorized, SubjectNow, Crashes;
    assert Prepared(Alone(), w3, M, {}) == w3;
    assert "X=1" != "default";
  }

  lemma FiveMoves(env: Env, w0: World, moves: seq<Move>, w1: World, w2: World, w3: World, w4: World, w5: World)
    requires |moves| == 5 && w1 == Next(env, w0, moves[0]) && w2 == Next(env, w1, moves[1]) && w3 == Next(env, w2, moves[2])
    requires w4 == Next(env, w3, moves[3]) && w5 == Next(env, w4, moves[4])
    ensures Run(env, w0, moves) == w5
  {
    hide Next;
    assert moves[1..][0] == moves[1] && moves[1..][1..] == moves[2..] && moves[2..][1..] == moves[3..] && moves[3..][1..] == moves[4..];
    assert Run(env, w4, moves[4..]) == Run(env, w5, moves[4..][1..]) == w5;
    assert Run(env, w3, moves[3..]) == Run(env, w4, moves[4..]);
    assert Run(env, w2, moves[2..]) == Run(env, w3, moves[3..]);
    assert Run(env, w1, moves[1..]) == Run(env, w2, moves[2..]);
  }
}
