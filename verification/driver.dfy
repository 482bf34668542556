/** The driver as the program has it (verilatorize/driver.py): its methods update the manifest, the copies and
    what the process has read in place, and do what the functions of the runs say. */
module Driver {
  import opened Wrap
  import opened Verdicts
  import opened VerdictRuns

  function Members(s: seq<string>): set<string> { set x | x in s }

  class Verilatorizer {
    const env: Env
    var files: map<string, Text>     // the source files, edited from outside
    var copies: set<string>          // the transformed copies on disk
    var man: Manifest                // manifest.json
    var cache: map<string, Entry>    // `_ENTRIES`
    var tried: set<(string, string)> // `_CHECKED`

    function State(): World
      reads this
    {
      World(files, copies, man, cache, tried, None)
    }

    constructor (env: Env)
      ensures State() == EMPTY && this.env == env
    {
      this.env, files, copies, man, cache, tried := env, map[], {}, map[], map[], {};
    }

    /** Re-transforms what was not current; a model whose transform crashes loses its entry. */
    method Transform(models: seq<string>, crashes: set<string>) returns (crashed: bool)
      requires forall m | m in models :: m in files
      modifies this`man, this`copies
      ensures man == Retransformed(env, files, old(copies), old(man), Members(models), crashes)
      ensures copies == CopiesAfter(env, files, old(copies), old(man), Members(models), crashes)
      ensures crashed <==> exists d :: d in crashes && Redo(files, old(copies), old(man), Members(models), d)
    {
      var was, there := man, copies;
      crashed := false;
      for i := 0 to |models|
        invariant man == Retransformed(env, files, there, was, Members(models[..i]), crashes)
        invariant copies == CopiesAfter(env, files, there, was, Members(models[..i]), crashes)
        invariant crashed <==> exists d :: d in crashes && Redo(files, there, was, Members(models[..i]), d)
      {
        var m := models[i];
        assert m in models;
        TransformStep(env, files, there, was, models, i, crashes);
        if !Current(files, there, was, m) {
          if m in crashes {
            man := man - {m};
            crashed := true;
          } else {
            if env.kind(files[m]) == Transformed { copies := copies + {m}; }
            man := man[m := Fresh(env, files[m])];
          }
        }
      }
      assert models[..|models|] == models;
    }

    /** The body of the loop of `_link`. */
    method LinkOne(m: string)
      requires m in man
      modifies this`man
      ensures m in man && man == old(man)[m := Relinked(old(man), m, BelowSet(old(man), m))]
    {
      var seen := Worklist(UsesOf(man), man[m].uses);
      SeenIs(man, m, seen);
      man := man[m := Relinked(man, m, seen)];
    }

    /** `_link`: every entry's hierarchy facts; a changed hierarchy discards the verdicts. */
    method Link()
      modifies this`man
      ensures man == Relink(old(man))
    {
      hide Below, Relinked, SameModel;
      var left := man.Keys;
      ghost var before := man;
      SameAll(before);
      while left != {}
        invariant left <= before.Keys == man.Keys
        invariant forall m | m in man :: SameModel(before[m], man[m])
        invariant forall m | m in left :: man[m] == before[m]
        invariant forall m | m in before && m !in left :: man[m] == Relinked(before, m, BelowSet(before, m))
        decreases left
      {
        var m :| m in left;
        LinkStep(before, man, m);
        LinkOne(m);
        left := left - {m};
      }
      assert man == Relink(before);
    }

    /** `verilatorize`: of some models and everything their hierarchies reach. It raises when a transform crashed. */
    method Verilatorize(models: seq<string>, crashes: set<string>) returns (raised: bool)
      modifies this`man, this`copies
      ensures State() == Verilatorized(env, old(State()), models, crashes)
      ensures raised <==> Crashes(env, old(State()), models, crashes)
    {
      var g := SourcesOf(files, env.uses);
      var all := Hierarchy(g, models);
      ReachedFiles(g, models);
      hide ReachedFrom, Retransformed, CopiesAfter, Relink, Redo;
      assert Members(all) == Wanted(env, State(), models);
      raised := Transform(all, crashes);
      Link();
    }

    /** `_record`: a verdict is written unless the entry moved on. */
    method Write(m: string, e: Entry, config: string, v: Verdict) returns (kept: bool)
      modifies this`man
      ensures kept <==> Recorded(old(man), m, e)
      ensures man == Record(old(man), m, e, config, v)
    {
      kept := m in man && man[m].source == e.source && man[m].deps == e.deps;
      if kept { man := man[m := WithVerdict(man[m], config, v)]; }
    }

    /** `_ensure_one`: `result` is what the simulators find. It raises for a model without a file, and when a
        transform crashed. */
    method Ensure(m: string, config: string, crashes: set<string>, result: Result) returns (raised: bool)
      modifies this
      ensures State() == Ensured(env, old(State()), m, config, crashes, result)
      ensures raised <==> m !in files || (m !in old(cache) && Crashes(env, old(State()), [m], crashes))
    {
      hide Verilatorized, Crashes, SubjectNow, Record, ReachedFrom;
      if m !in files { return true; }
      if m !in cache {
        ghost var was := State();
        raised := Verilatorize([m], crashes);
        FilesStay(env, was, [m], crashes);
        if raised { return; }
        MineThere(env, was, m, crashes);
        cache := cache[m := man[m]];
      }
      assert State() == Prepared(env, old(State()), m, crashes);
      raised := false;
      var e := cache[m];
      if !Checkable(e) || (m, config) in tried || Settled(e, config) { return; }
      var about := Compare(m);
      var v := Verdict(result, about);
      tried, cache := tried + {(m, config)}, cache[m := WithVerdict(e, config, v)];
      var kept := Write(m, e, config, v);
    }

    /** What a check reads: the file of the model and of everything it reaches, as they are. */
    method Compare(m: string) returns (about: Subject)
      requires m in files
      ensures about == SubjectNow(files, env.uses, m)
    {
      var g := SourcesOf(files, env.uses);
      var seen := Hierarchy(g, g[m]);
      ReachedFiles(g, g[m]);
      hide ReachedFrom;
      about := Subject(files[m], map d | d in seen && d in files :: files[d]);
      assert about.deps == SubjectNow(files, env.uses, m).deps;
    }
  }

  ghost function BelowSet(man: Manifest, m: string): set<string> { set d | d in man && Below(man, m, d) }

  lemma SeenIs(man: Manifest, m: string, seen: set<string>)
    requires m in man && forall d :: d in seen <==> ReachedFrom(UsesOf(man), man[m].uses, d)
    ensures seen == BelowSet(man, m)
  {
    SeenBelow(man, m, BelowSet(man, m));
    hide Below, ReachedFrom;
  }

  /** One more model transformed. */
  lemma TransformStep(env: Env, files: map<string, Text>, copies: set<string>, man: Manifest, models: seq<string>, i: nat, crashes: set<string>)
    requires i < |models| && models[i] in files
    ensures var a, b, m := Members(models[..i]), Members(models[..i + 1]), models[i];
      var r, s := Retransformed(env, files, copies, man, a, crashes), Retransformed(env, files, copies, man, b, crashes);
      var c, d := CopiesAfter(env, files, copies, man, a, crashes), CopiesAfter(env, files, copies, man, b, crashes);
      && s == (if Current(files, copies, man, m) then r else if m in crashes then r - {m} else r[m := Fresh(env, files[m])])
      && d == (if Current(files, copies, man, m) || m in crashes || env.kind(files[m]) != Transformed then c else c + {m})
      && forall k :: Redo(files, copies, man, b, k) <==> Redo(files, copies, man, a, k) || (k == m && !Current(files, copies, man, m))
  {
    var m, a := models[i], Members(models[..i]);
    assert models[..i + 1] == models[..i] + [m];
    assert Members(models[..i + 1]) == a + {m};
    hide Retransformed, CopiesAfter, Redo, Current, Fresh, Members;
    RedoStep(files, copies, man, a, m);
    ManStep(env, files, copies, man, a, m, crashes);
    CopiesStep(env, files, copies, man, a, m, crashes);
  }

  lemma RedoStep(files: map<string, Text>, copies: set<string>, man: Manifest, a: set<string>, m: string)
    requires m in files
    ensures forall k :: Redo(files, copies, man, a + {m}, k) <==> Redo(files, copies, man, a, k) || (k == m && !Current(files, copies, man, m))
  {
    hide Current;
  }

  lemma ManStep(env: Env, files: map<string, Text>, copies: set<string>, man: Manifest, a: set<string>, m: string, crashes: set<string>)
    requires m in files
    ensures var r, s := Retransformed(env, files, copies, man, a, crashes), Retransformed(env, files, copies, man, a + {m}, crashes);
      s == (if Current(files, copies, man, m) then r else if m in crashes then r - {m} else r[m := Fresh(env, files[m])])
  {
    RedoStep(files, copies, man, a, m);
    CurrentThere(files, copies, man, m);
    hide Current, Fresh, Redo;
  }

  lemma CurrentThere(files: map<string, Text>, copies: set<string>, man: Manifest, m: string)
    ensures Current(files, copies, man, m) ==> m in man
  {}

  lemma CopiesStep(env: Env, files: map<string, Text>, copies: set<string>, man: Manifest, a: set<string>, m: string, crashes: set<string>)
    requires m in files
    ensures var c, d := CopiesAfter(env, files, copies, man, a, crashes), CopiesAfter(env, files, copies, man, a + {m}, crashes);
      d == (if Current(files, copies, man, m) || m in crashes || env.kind(files[m]) != Transformed then c else c + {m})
  {
    RedoStep(files, copies, man, a, m);
    RedoIn(files, copies, man, a);
    RedoIn(files, copies, man, a + {m});
    hide Current, Redo;
  }

  lemma RedoIn(files: map<string, Text>, copies: set<string>, man: Manifest, a: set<string>)
    ensures forall k :: Redo(files, copies, man, a, k) ==> k in a && k in files
  {}

  /** Linking one entry sees the models as they were before any was linked. */
  lemma LinkStep(before: Manifest, man: Manifest, m: string)
    requires before.Keys == man.Keys && (forall k | k in before :: SameModel(before[k], man[k])) && m in man && man[m] == before[m]
    ensures Relinked(man, m, BelowSet(man, m)) == Relinked(before, m, BelowSet(before, m))
    ensures SameModel(before[m], Relinked(before, m, BelowSet(before, m)))
  {
    SameUses(before, man);
    hide Below;
    assert BelowSet(man, m) == BelowSet(before, m);
    SameKey(before, man, BelowSet(before, m));
  }

  lemma SameKey(a: Manifest, b: Manifest, seen: set<string>)
    requires a.Keys == b.Keys && forall k | k in a :: SameModel(a[k], b[k])
    ensures DepsKey(a, seen) == DepsKey(b, seen) && forall k :: OfKind(a, seen, k) == OfKind(b, seen, k)
  {
    assert forall k | k in a :: SameModel(a[k], b[k]);
  }

  lemma FilesStay(env: Env, w: World, models: seq<string>, crashes: set<string>)
    ensures var v := Verilatorized(env, w, models, crashes); v.files == w.files && v.cache == w.cache && v.tried == w.tried && v.pass == w.pass
  {}

  /** A model that was asked for has an entry, unless its transform crashed. */
  lemma MineThere(env: Env, w: World, m: string, crashes: set<string>)
    requires m in w.files && !Crashes(env, w, [m], crashes)
    ensures m in Verilatorized(env, w, [m], crashes).man
  {
    MineWanted(env, w, m);
    hide Wanted;
    var r := Retransformed(env, w.files, w.copies, w.man, Wanted(env, w, [m]), crashes);
    RelinkIs(r);
    assert m in r;
  }
}
