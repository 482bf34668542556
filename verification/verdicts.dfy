/** The incremental manifest of transformed models (verilatorize/driver.py): which entries and which
    equivalence verdicts are kept, and why a kept verdict is never stale. */
module Verdicts {
  import opened Wrap

  // ---- instantiation graphs --------------------------------------------------------------------------

  /** Which models a model instantiates; only the keys are models of the source. */
  type Graph = map<string, seq<string>>

  predicate Step(g: Graph, a: string, b: string) { a in g && b in g && b in g[a] }

  /** A walk along instantiations. */
  predicate Walk(g: Graph, p: seq<string>) {
    p != [] && p[0] in g && forall i :: 0 <= i < |p| - 1 ==> Step(g, p[i], p[i + 1])
  }

  ghost predicate Reaches(g: Graph, a: string, b: string) { exists p :: Walk(g, p) && p[0] == a && p[|p| - 1] == b }

  /** The models reached from some of a list, the list's own models included. */
  ghost predicate ReachedFrom(g: Graph, start: seq<string>, b: string) { exists a :: a in start && Reaches(g, a, b) }

  predicate Closed(g: Graph, s: set<string>) { forall a, b | a in s && b in g && a in g && b in g[a] :: b in s }

  lemma ReachSelf(g: Graph, a: string)
    requires a in g
    ensures Reaches(g, a, a)
  {
    assert Walk(g, [a]);
  }

  lemma StartReached(g: Graph, start: seq<string>)
    ensures forall a | a in start && a in g :: ReachedFrom(g, start, a)
  {
    forall a | a in start && a in g
      ensures ReachedFrom(g, start, a)
    {
      ReachSelf(g, a);
    }
  }

  lemma MoreReached(g: Graph, start: seq<string>, m: string)
    requires ReachedFrom(g, start, m) && m in g
    ensures forall b | b in g[m] && b in g :: ReachedFrom(g, start, b)
  {
    var a :| a in start && Reaches(g, a, m);
    forall b | b in g[m] && b in g
      ensures ReachedFrom(g, start, b)
    {
      ReachStep(g, a, m, b);
    }
  }

  lemma ReachStep(g: Graph, a: string, b: string, c: string)
    requires Reaches(g, a, b) && Step(g, b, c)
    ensures Reaches(g, a, c)
  {
    var p :| Walk(g, p) && p[0] == a && p[|p| - 1] == b;
    var q := p + [c];
    forall i | 0 <= i < |q| - 1
      ensures Step(g, q[i], q[i + 1])
    {
      assert i < |p| - 1 ==> Step(g, p[i], p[i + 1]);
    }
    assert Walk(g, q);
  }

  lemma ReachOn(g: Graph, a: string, b: string, c: string)
    requires Reaches(g, a, b) && Reaches(g, b, c)
    ensures Reaches(g, a, c)
  {
    var q :| Walk(g, q) && q[0] == b && q[|q| - 1] == c;
    WalkOn(g, a, q);
  }

  lemma {:induction false} WalkOn(g: Graph, a: string, q: seq<string>)
    requires Walk(g, q) && Reaches(g, a, q[0])
    ensures Reaches(g, a, q[|q| - 1])
    decreases |q|
  {
    if |q| > 1 {
      assert Step(g, q[0], q[1]);
      ReachStep(g, a, q[0], q[1]);
      var r := q[1..];
      forall i | 0 <= i < |r| - 1
        ensures Step(g, r[i], r[i + 1])
      {
        assert Step(g, q[i + 1], q[i + 2]);
      }
      WalkOn(g, a, r);
    }
  }

  lemma {:induction false} WalkStays(g: Graph, s: set<string>, p: seq<string>)
    requires Closed(g, s) && Walk(g, p) && p[0] in s
    ensures p[|p| - 1] in s
    decreases |p|
  {
    if |p| > 1 {
      assert Step(g, p[0], p[1]);
      var q := p[1..];
      forall i | 0 <= i < |q| - 1
        ensures Step(g, q[i], q[i + 1])
      {
        assert Step(g, p[i + 1], p[i + 2]);
      }
      WalkStays(g, s, q);
    }
  }

  /** A closed set of reached models that has the start is exactly the reached models. */
  lemma ClosureIs(g: Graph, start: seq<string>, s: set<string>)
    requires Closed(g, s) && (forall b | b in s :: ReachedFrom(g, start, b)) && forall a | a in start && a in g :: a in s
    ensures forall b :: b in s <==> ReachedFrom(g, start, b)
  {
    forall b | ReachedFrom(g, start, b)
      ensures b in s
    {
      var a :| a in start && Reaches(g, a, b);
      var p :| Walk(g, p) && p[0] == a && p[|p| - 1] == b;
      WalkStays(g, s, p);
    }
  }

  /** What is still to be looked at leads to nothing new but itself. */
  predicate Pending(g: Graph, seen: set<string>, todo: seq<string>) {
    forall a, b | a in seen && a in g && b in g && b in g[a] :: b in seen || b in todo
  }

  /** `hierarchy`: the worklist over the files as they are, cycles included. */
  method Hierarchy(g: Graph, start: seq<string>) returns (seen: seq<string>)
    ensures forall b :: b in seen <==> ReachedFrom(g, start, b)
  {
    hide ReachedFrom;
    StartReached(g, start);
    seen := [];
    var todo := start;
    ghost var have: set<string> := {};
    while todo != []
      invariant have == (set x | x in seen) && have <= g.Keys
      invariant forall b | b in seen :: ReachedFrom(g, start, b)
      invariant forall b | b in todo && b in g :: ReachedFrom(g, start, b)
      invariant Pending(g, have, todo)
      invariant forall a | a in start && a in g :: a in have || a in todo
      decreases |g.Keys - have|, |todo|
    {
      var m := todo[0];
      assert m in todo;
      ghost var was := todo;
      todo := todo[1..];
      assert was == [m] + todo;
      if m in seen || m !in g { continue; }
      ghost var old_ := g.Keys - have;
      seen, have := seen + [m], have + {m};
      assert g.Keys - have == old_ - {m} && m in old_;
      todo := todo + g[m];
      MoreReached(g, start, m);
    }
    ClosureIs(g, start, have);
  }

  /** The worklist of `_link` over the entries of the manifest. */
  method Worklist(g: Graph, start: seq<string>) returns (seen: set<string>)
    ensures forall d :: d in seen <==> ReachedFrom(g, start, d)
  {
    hide ReachedFrom;
    StartReached(g, start);
    var todo := start;
    seen := {};
    while todo != []
      invariant seen <= g.Keys
      invariant forall b | b in seen :: ReachedFrom(g, start, b)
      invariant forall b | b in todo && b in g :: ReachedFrom(g, start, b)
      invariant Pending(g, seen, todo)
      invariant forall a | a in start && a in g :: a in seen || a in todo
      decreases |g.Keys - seen|, |todo|
    {
      var d := todo[|todo| - 1];
      assert d in todo;
      ghost var was := todo;
      todo := todo[..|todo| - 1];
      assert was == todo + [d];
      if d in seen || d !in g { continue; }
      ghost var left := g.Keys - seen;
      seen := seen + {d};
      assert g.Keys - seen == left - {d} && d in left;
      todo := todo + g[d];
      MoreReached(g, start, d);
    }
    ClosureIs(g, start, seen);
  }

  // ---- entries ---------------------------------------------------------------------------------------

  /** The text of a source file. Hashes are taken to be injective, so a text is its own hash; glbl, the
      tool and the generate choices stay the same. */
  type Text = string

  datatype Kind = Transformed | Unchanged | Unsupported

  /** What a verdict was computed for: the model's source, and those of its hierarchy. */
  datatype Subject = Subject(source: Text, deps: map<string, Text>)

  datatype Result = Passed | Failed | Errored

  /** `about` is not recorded by the program: it is what the check read, as of then. */
  datatype Verdict = Verdict(result: Result, about: Subject)

  datatype Entry = Entry(source: Text, kind: Kind, uses: seq<string>, deps: Option<map<string, Text>>,
                         onTransformed: set<string>, onUnsupported: set<string>,
                         verdicts: map<string, Verdict>, configs: map<string, seq<(string, string)>>)

  type Manifest = map<string, Entry>

  function UsesOf(man: Manifest): Graph { map m | m in man :: man[m].uses }

  function SourcesOf(files: map<string, Text>, uses: Text -> seq<string>): Graph { map m | m in files :: uses(files[m]) }

  /** The models of an entry's hierarchy, as `_link` finds them: its own model only through a cycle. */
  ghost predicate Below(man: Manifest, m: string, d: string) { m in man && ReachedFrom(UsesOf(man), man[m].uses, d) }

  /** What an entry's verdicts have to be about. */
  function About(e: Entry): Subject
    requires e.deps.Some?
  {
    Subject(e.source, e.deps.value)
  }

  /** Every verdict of the manifest is about the entry that holds it. */
  ghost predicate VerdictsOk(man: Manifest) {
    forall m, c | m in man && c in man[m].verdicts :: man[m].deps.Some? && man[m].verdicts[c].about == About(man[m])
  }

  /** Every entry is what the transform makes of its source. */
  ghost predicate EntriesOk(man: Manifest, uses: Text -> seq<string>, kind: Text -> Kind) {
    forall m | m in man :: man[m].uses == uses(man[m].source) && man[m].kind == kind(man[m].source)
  }

  // ---- verilatorize ----------------------------------------------------------------------------------

  /** What a source instantiates, and how the transform classifies it. */
  datatype Env = Env(uses: Text -> seq<string>, kind: Text -> Kind)

  /** `_current`: transformed from the file as it is, the copy still there. */
  predicate Current(files: map<string, Text>, copies: set<string>, man: Manifest, m: string) {
    m in files && m in man && man[m].source == files[m] && (man[m].kind == Transformed ==> m in copies)
  }

  predicate Redo(files: map<string, Text>, copies: set<string>, man: Manifest, models: set<string>, m: string) {
    m in models && m in files && !Current(files, copies, man, m)
  }

  /** `transform_one`: a fresh entry, without verdicts. */
  function Fresh(env: Env, text: Text): Entry { Entry(text, env.kind(text), env.uses(text), None, {}, {}, map[], map[]) }

  /** The manifest after the models that are not current were transformed; one that crashes loses its entry. */
  function Retransformed(env: Env, files: map<string, Text>, copies: set<string>, man: Manifest,
                         models: set<string>, crashes: set<string>): Manifest {
    map m | m in man.Keys + models && (if Redo(files, copies, man, models, m) then m !in crashes else m in man) ::
      if Redo(files, copies, man, models, m) then Fresh(env, files[m]) else man[m]
  }

  function CopiesAfter(env: Env, files: map<string, Text>, copies: set<string>, man: Manifest,
                       models: set<string>, crashes: set<string>): set<string> {
    copies + set m | m in models && Redo(files, copies, man, models, m) && m !in crashes && env.kind(files[m]) == Transformed
  }

  /** `_link` of every entry. */
  ghost function Relink(man: Manifest): Manifest { map m | m in man :: Relinked(man, m, set d | d in man && Below(man, m, d)) }

  // ---- what linking leaves ---------------------------------------------------------------------------

  predicate SameModel(a: Entry, b: Entry) { b.source == a.source && b.kind == a.kind && b.uses == a.uses }

  function OfKind(man: Manifest, ms: set<string>, k: Kind): set<string> { set d | d in ms && d in man && man[d].kind == k }

  function DepsKey(man: Manifest, seen: set<string>): map<string, Text> { map d | d in seen && d in man :: man[d].source }

  /** An entry with the hierarchy facts of the models below it; new ones discard its verdicts. */
  function Relinked(man: Manifest, m: string, seen: set<string>): Entry
    requires m in man
  {
    var key := DepsKey(man, seen);
    var e := man[m].(onTransformed := OfKind(man, seen, Transformed), onUnsupported := OfKind(man, seen, Unsupported), deps := Some(key));
    if man[m].deps == Some(key) then e else e.(verdicts := map[], configs := map[])
  }

  lemma RelinkedIs(man: Manifest, m: string, seen: set<string>)
    requires m in man && forall d :: d in seen <==> ReachedFrom(UsesOf(man), man[m].uses, d)
    ensures var e := Relinked(man, m, seen); SameModel(man[m], e) && LinkedEntry(man, m, e) && KeptIfSame(man[m], e)
    ensures VerdictsOk(man) ==> VerdictsOk(man[m := Relinked(man, m, seen)])
  {
    BelowKnown(man, m);
    assert forall d :: d in seen <==> Below(man, m, d);
    hide Below, ReachedFrom;
  }

  /** The hierarchy facts of an entry are those of the manifest. */
  ghost predicate LinkedEntry(man: Manifest, m: string, e: Entry) {
    && e.deps.Some?
    && (forall d :: d in e.deps.value <==> Below(man, m, d))
    && (forall d | d in e.deps.value && d in man :: e.deps.value[d] == man[d].source)
    && (forall d :: d in e.onTransformed <==> Below(man, m, d) && d in man && man[d].kind == Transformed)
    && (forall d :: d in e.onUnsupported <==> Below(man, m, d) && d in man && man[d].kind == Unsupported)
  }

  ghost predicate Linked(man: Manifest) { forall m | m in man :: LinkedEntry(man, m, man[m]) }

  lemma SameUses(a: Manifest, b: Manifest)
    requires a.Keys == b.Keys && forall m | m in a :: SameModel(a[m], b[m])
    ensures UsesOf(a) == UsesOf(b)
    ensures forall m, d :: Below(a, m, d) <==> Below(b, m, d)
  {
    assert UsesOf(a) == UsesOf(b);
    hide ReachedFrom;
  }

  /** Verdicts survive linking exactly when the hierarchy is as it was. */
  predicate KeptIfSame(a: Entry, b: Entry) {
    if a.deps == b.deps then b.verdicts == a.verdicts && b.configs == a.configs else b.verdicts == map[] && b.configs == map[]
  }

  lemma SameAll(a: Manifest)
    ensures forall m | m in a :: SameModel(a[m], a[m])
  {}

  lemma BelowKnown(man: Manifest, m: string)
    ensures forall d | Below(man, m, d) :: d in man
  {
    forall d | Below(man, m, d)
      ensures d in man
    {
      ReachedFiles(UsesOf(man), man[m].uses);
    }
  }

  /** Linking one entry after others sees the hierarchy as it was before them. */
  lemma SameLinks(before: Manifest, was: Manifest, m: string, e: Entry)
    requires before.Keys == was.Keys && (forall k | k in before :: SameModel(before[k], was[k])) && LinkedEntry(was, m, e)
    ensures LinkedEntry(before, m, e)
  {
    SameUses(before, was);
    hide Below;
    assert forall d | d in was :: before[d].source == was[d].source && before[d].kind == was[d].kind by {
      forall d | d in was
        ensures before[d].source == was[d].source && before[d].kind == was[d].kind
      {
        assert SameModel(before[d], was[d]);
      }
    }
    hide SameModel;
  }

  /** `_link` leaves every entry with the facts of the manifest, and discards verdicts exactly when they changed. */
  lemma RelinkIs(man: Manifest)
    ensures var r := Relink(man);
      r.Keys == man.Keys && Linked(r) && forall m | m in man :: SameModel(man[m], r[m]) && KeptIfSame(man[m], r[m])
  {
    hide Below, LinkedEntry, Linked, SameModel, KeptIfSame, Relinked;
    forall m | m in man
      ensures SameModel(man[m], Relink(man)[m]) && LinkedEntry(man, m, Relink(man)[m]) && KeptIfSame(man[m], Relink(man)[m])
    {
      var seen := set d | d in man && Below(man, m, d);
      SeenBelow(man, m, seen);
      RelinkedIs(man, m, seen);
    }
    LinkedAll(man, Relink(man));
  }

  lemma SeenBelow(man: Manifest, m: string, seen: set<string>)
    requires m in man && seen == set d | d in man && Below(man, m, d)
    ensures forall d :: d in seen <==> ReachedFrom(UsesOf(man), man[m].uses, d)
  {
    BelowKnown(man, m);
    hide ReachedFrom;
  }

  lemma LinkedAll(a: Manifest, b: Manifest)
    requires a.Keys == b.Keys && (forall m | m in a :: SameModel(a[m], b[m])) && forall m | m in a :: LinkedEntry(a, m, b[m])
    ensures Linked(b)
  {
    SameUses(a, b);
    hide Below, SameModel;
    forall m | m in b
      ensures LinkedEntry(b, m, b[m])
    {
      SameBack(a, b);
      SameLinks(b, a, m, b[m]);
    }
  }

  lemma SameBack(a: Manifest, b: Manifest)
    requires a.Keys == b.Keys && forall m | m in a :: SameModel(a[m], b[m])
    ensures forall m | m in b :: SameModel(b[m], a[m])
  {}

  // ---- what a verdict is about -----------------------------------------------------------------------

  /** What the hierarchy of `m` reaches by at least one instantiation. */
  ghost predicate Beyond(g: Graph, m: string, d: string) { m in g && ReachedFrom(g, g[m], d) }

  lemma ReachedFiles(g: Graph, start: seq<string>)
    ensures forall b | ReachedFrom(g, start, b) :: b in g
  {
    forall b | ReachedFrom(g, start, b)
      ensures b in g
    {
      var a :| a in start && Reaches(g, a, b);
      var p :| Walk(g, p) && p[0] == a && p[|p| - 1] == b;
      assert |p| > 1 ==> Step(g, p[|p| - 2], p[|p| - 1]);
    }
  }

  /** What a check that reads the files now compares: the model and every model it instantiates, however deep. */
  ghost function SubjectNow(files: map<string, Text>, uses: Text -> seq<string>, m: string): Subject
    requires m in files
  {
    Subject(files[m], map d | d in files && Beyond(SourcesOf(files, uses), m, d) :: files[d])
  }

  predicate UpToDate(files: map<string, Text>, man: Manifest, d: string) { d in man && d in files && man[d].source == files[d] }

  /** Everything that `m` reaches in the files has an entry made from its file. */
  ghost predicate AllCurrent(files: map<string, Text>, uses: Text -> seq<string>, man: Manifest, m: string) {
    forall d | Reaches(SourcesOf(files, uses), m, d) :: UpToDate(files, man, d)
  }

  /** `about` agrees with the files on `m` and on all that `m` reaches in them. */
  ghost predicate Agrees(files: map<string, Text>, uses: Text -> seq<string>, m: string, about: Subject) {
    m in files && about.source == files[m]
    && forall d | Beyond(SourcesOf(files, uses), m, d) :: d in about.deps && d in files && about.deps[d] == files[d]
  }

  /** Every model of the entry's hierarchy still has a file. */
  ghost predicate NoneRemoved(files: map<string, Text>, man: Manifest, m: string) { forall d | Below(man, m, d) :: d in files }

  /** A walk in one graph is a walk in another that agrees with it on what is reached. */
  lemma {:induction false} WalkBoth(g: Graph, h: Graph, p: seq<string>, m: string)
    requires Walk(g, p) && (forall d | Reaches(g, m, d) :: d in h && d in g && h[d] == g[d]) && Reaches(g, m, p[0])
    ensures Walk(h, p) && Reaches(g, m, p[|p| - 1])
    decreases |p|
  {
    if |p| > 1 {
      assert Step(g, p[0], p[1]);
      ReachStep(g, m, p[0], p[1]);
      var q := p[1..];
      forall i | 0 <= i < |q| - 1
        ensures Step(g, q[i], q[i + 1])
      {
        assert Step(g, p[i + 1], p[i + 2]);
      }
      WalkBoth(g, h, q, m);
      forall i | 0 <= i < |p| - 1
        ensures Step(h, p[i], p[i + 1])
      {
        assert i > 0 ==> Step(h, q[i - 1], q[i]);
      }
    }
  }

  /** What the files reach beyond `m`, the entries reach below it. */
  lemma BeyondBelow(files: map<string, Text>, env: Env, man: Manifest, m: string, d: string)
    requires m in files && m in man && EntriesOk(man, env.uses, env.kind) && AllCurrent(files, env.uses, man, m)
    requires Beyond(SourcesOf(files, env.uses), m, d)
    ensures Below(man, m, d) && UpToDate(files, man, d)
  {
    var g, h := SourcesOf(files, env.uses), UsesOf(man);
    ReachSelf(g, m);
    assert UpToDate(files, man, m);
    forall x | Reaches(g, m, x)
      ensures x in h && x in g && h[x] == g[x]
    {
      assert UpToDate(files, man, x);
    }
    var a :| a in g[m] && Reaches(g, a, d);
    var p :| Walk(g, p) && p[0] == a && p[|p| - 1] == d;
    assert Step(g, m, a);
    ReachStep(g, m, m, a);
    WalkBoth(g, h, p, m);
    assert Reaches(h, a, d);
  }

  /** The other way round, when the files still have every model below the entry. */
  lemma BelowBeyond(files: map<string, Text>, env: Env, man: Manifest, m: string, d: string)
    requires m in files && m in man && EntriesOk(man, env.uses, env.kind) && AllCurrent(files, env.uses, man, m)
    requires NoneRemoved(files, man, m) && Below(man, m, d)
    ensures Beyond(SourcesOf(files, env.uses), m, d)
  {
    var g, h := SourcesOf(files, env.uses), UsesOf(man);
    ReachSelf(g, m);
    assert UpToDate(files, man, m) && g[m] == man[m].uses;
    var a :| a in man[m].uses && Reaches(h, a, d);
    var p :| Walk(h, p) && p[0] == a && p[|p| - 1] == d;
    ReachSelf(h, a);
    assert Below(man, m, a);
    assert Step(g, m, a);
    ReachStep(g, m, m, a);
    WalkDown(files, env, man, m, a, p);
  }

  lemma {:induction false} WalkDown(files: map<string, Text>, env: Env, man: Manifest, m: string, a: string, p: seq<string>)
    requires m in files && m in man && EntriesOk(man, env.uses, env.kind) && AllCurrent(files, env.uses, man, m) && NoneRemoved(files, man, m)
    requires a in man[m].uses && Walk(UsesOf(man), p) && p[0] == a
    requires Reaches(SourcesOf(files, env.uses), m, a)
    ensures Reaches(SourcesOf(files, env.uses), a, p[|p| - 1])
    decreases |p|
  {
    var g, h := SourcesOf(files, env.uses), UsesOf(man);
    if |p| == 1 {
      assert UpToDate(files, man, a);
      ReachSelf(g, a);
    } else {
      var q := p[..|p| - 1];
      forall i | 0 <= i < |q| - 1
        ensures Step(h, q[i], q[i + 1])
      {
        assert Step(h, p[i], p[i + 1]);
      }
      WalkDown(files, env, man, m, a, q);
      var x, y := p[|p| - 2], p[|p| - 1];
      assert Step(h, x, y);
      ReachOn(g, m, a, x);
      assert UpToDate(files, man, x);
      assert Walk(h, p) && Reaches(h, a, y);
      assert Below(man, m, y);
      assert Step(g, x, y);
      ReachStep(g, a, x, y);
    }
  }

  /** With entries that are linked and current for all that `m` reaches, what the entry of `m` records agrees
      with the files, and is what a check would read now if and only if no model below it was removed. */
  lemma EntryExact(files: map<string, Text>, env: Env, man: Manifest, m: string)
    requires m in files && m in man && EntriesOk(man, env.uses, env.kind) && Linked(man) && AllCurrent(files, env.uses, man, m)
    ensures man[m].deps.Some? && Agrees(files, env.uses, m, About(man[m]))
    ensures About(man[m]) == SubjectNow(files, env.uses, m) <==> NoneRemoved(files, man, m)
  {
    hide Below, Beyond, Reaches, EntriesOk, AllCurrent;
    var g := SourcesOf(files, env.uses);
    MineCurrent(files, env, man, m);
    assert LinkedEntry(man, m, man[m]);
    forall d | Beyond(g, m, d)
      ensures d in man[m].deps.value && d in files && man[m].deps.value[d] == files[d]
    {
      BeyondBelow(files, env, man, m, d);
    }
    var now := SubjectNow(files, env.uses, m).deps;
    if NoneRemoved(files, man, m) {
      forall d | Below(man, m, d)
        ensures Beyond(g, m, d)
      {
        BelowBeyond(files, env, man, m, d);
      }
      assert man[m].deps.value == now;
    }
    if man[m].deps.value == now {
      assert forall d | Below(man, m, d) :: d in now;
    }
  }

  lemma MineCurrent(files: map<string, Text>, env: Env, man: Manifest, m: string)
    requires m in files && AllCurrent(files, env.uses, man, m)
    ensures UpToDate(files, man, m)
  {
    ReachSelf(SourcesOf(files, env.uses), m);
  }

  // ---- descendants -----------------------------------------------------------------------------------

  datatype Block = Underived | ByVerdict(model: string, result: Option<Result>)

  /** `descendants_blocked`: the first descendant that has not passed for its parameterisation. */
  function Blocked(e: Entry, config: string, man: Manifest): Option<Block> {
    if e.onTransformed == {} then None
    else if config !in e.configs then Some(Underived)
    else FirstBlocked(e.configs[config], man)
  }

  function ResultOf(man: Manifest, d: string, key: string): Option<Result> {
    if d in man && key in man[d].verdicts then Some(man[d].verdicts[key].result) else None
  }

  function FirstBlocked(ds: seq<(string, string)>, man: Manifest): Option<Block> {
    if ds == [] then None
    else if ResultOf(man, ds[0].0, ds[0].1) != Some(Passed) then Some(ByVerdict(ds[0].0, ResultOf(man, ds[0].0, ds[0].1)))
    else FirstBlocked(ds[1..], man)
  }

  /** A configuration is not blocked exactly when the model has no transformed descendant, or the
      descendants were derived for it and each has passed for its own parameterisation. */
  lemma {:induction false} NotBlocked(e: Entry, config: string, man: Manifest)
    ensures Blocked(e, config, man).None? <==>
            e.onTransformed == {}
            || (config in e.configs && forall d | d in e.configs[config] :: ResultOf(man, d.0, d.1) == Some(Passed))
  {
    if config in e.configs { FirstBlockedIs(e.configs[config], man); }
  }

  lemma {:induction false} FirstBlockedIs(ds: seq<(string, string)>, man: Manifest)
    ensures FirstBlocked(ds, man).None? <==> forall d | d in ds :: ResultOf(man, d.0, d.1) == Some(Passed)
  {
    if ds != [] {
      FirstBlockedIs(ds[1..], man);
      assert ds == [ds[0]] + ds[1..];
      assert ds[0] in ds;
    }
  }
}
