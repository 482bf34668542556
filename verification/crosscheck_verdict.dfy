/** The evidence of a test, the account of its single results and its verdict (`_evidence`, `companion_gap`,
    `_result_issues`, `_config_coverage` and `check` of crosscheck.py). */
module CrosscheckVerdict {
  import opened Wrap
  import opened Traces
  import opened Crosscheck
  import opened CrosscheckGolden
  import opened CrosscheckReport

  // ---- evidence --------------------------------------------------------------------------------------

  ghost predicate SomeEvidence(vs: seq<View>) { exists c :: c in Comparisons(vs) && Both(c) && Evidence(c) }

  /** Some comparison of the result is evidence. */
  ghost predicate Evident(vs: seq<View>, v: View) {
    exists c :: c in Comparisons(vs) && Both(c) && Evidence(c) && (c.a == v || c.b == v)
  }

  /** Every result that is compared at all has evidence. */
  ghost predicate EachEvident(vs: seq<View>) { forall c | c in Comparisons(vs) :: Evident(vs, c.a) && Evident(vs, c.b) }

  ghost predicate TwoTraces(vs: seq<View>) { exists i, j :: 0 <= i < j < |vs| && HasTrace(vs[i]) && HasTrace(vs[j]) }

  /** Never agreement by omission: with two traces, evidence, and evidence of every compared result. */
  ghost predicate EvidenceOk(vs: seq<View>) { TwoTraces(vs) ==> SomeEvidence(vs) && EachEvident(vs) }

  predicate Mentions(p: Pair, k: Who) { p.a == k || p.b == k }

  method AnyEvidence(pairs: seq<Pair>) returns (any: bool)
    ensures any <==> exists p :: p in pairs && p.evidence
  {
    any := false;
    for i := 0 to |pairs|
      invariant any <==> exists k :: 0 <= k < i && pairs[k].evidence
    {
      any := any || pairs[i].evidence;
    }
    assert forall p :: p in pairs <==> exists k :: 0 <= k < |pairs| && pairs[k] == p;
  }

  method HasTwoTraces(vs: seq<View>) returns (two: bool)
    ensures two <==> TwoTraces(vs)
  {
    hide HasTrace;
    var n: nat := 0;
    for i := 0 to |vs|
      invariant n >= 1 <==> exists k :: 0 <= k < i && HasTrace(vs[k])
      invariant n >= 2 <==> exists j, k :: 0 <= j < k < i && HasTrace(vs[j]) && HasTrace(vs[k])
    {
      if HasTrace(vs[i]) { n := n + 1; }
    }
    two := n >= 2;
  }

  /** A result is there when a pair mentions it, with whether one that does is evidence. */
  predicate SeenAs(pairs: seq<Pair>, seen: map<Who, bool>, k: Who) {
    && (k in seen <==> exists p :: p in pairs && Mentions(p, k))
    && (k in seen ==> (seen[k] <==> exists p :: p in pairs && Mentions(p, k) && p.evidence))
  }

  /** Whether the results that are compared have evidence. */
  method ByView(pairs: seq<Pair>) returns (seen: map<Who, bool>)
    ensures forall k :: SeenAs(pairs, seen, k)
  {
    seen := map[];
    for i := 0 to |pairs|
      invariant forall k :: SeenAs(pairs[..i], seen, k)
    {
      var p := pairs[i];
      ghost var was := seen;
      ghost var next := pairs[..i + 1];
      assert next == pairs[..i] + [p];
      seen := seen[p.a := (p.a in seen && seen[p.a]) || p.evidence];
      seen := seen[p.b := (p.b in seen && seen[p.b]) || p.evidence];
      forall k
        ensures SeenAs(next, seen, k)
      {
        Mentioned(pairs[..i], p, k);
        assert SeenAs(pairs[..i], was, k);
        assert k in seen <==> k in was || Mentions(p, k);
        assert k in seen ==> (seen[k] <==> (k in was && was[k]) || (Mentions(p, k) && p.evidence));
      }
    }
    assert pairs[..|pairs|] == pairs;
  }

  lemma Mentioned(pairs: seq<Pair>, p: Pair, k: Who)
    ensures (exists q :: q in pairs + [p] && Mentions(q, k)) <==> (exists q :: q in pairs && Mentions(q, k)) || Mentions(p, k)
    ensures (exists q :: q in pairs + [p] && Mentions(q, k) && q.evidence)
            <==> (exists q :: q in pairs && Mentions(q, k) && q.evidence) || (Mentions(p, k) && p.evidence)
  {
    assert p in pairs + [p] && forall q | q in pairs :: q in pairs + [p];
  }

  lemma CompareBoth(vs: seq<View>)
    ensures forall c | c in Comparisons(vs) :: Both(c) && c.a in vs && c.b in vs && HasTrace(c.a) && HasTrace(c.b) && Name(c.a) != Name(c.b)
  {}

  /** `_evidence`. */
  method EvidenceIssues(vs: seq<View>, pairs: seq<Pair>) returns (compared: bool, issues: seq<Issue>)
    requires ViewsOk(vs) && Lists(pairs, Comparisons(vs))
    ensures compared <==> SomeEvidence(vs)
    ensures issues == [] <==> EvidenceOk(vs)
  {
    hide ViewsOk, Comparisons, Evidence, HasTrace, TwoTraces, EachEvident;
    CompareBoth(vs);
    compared := AnyEvidence(pairs);
    SomeListed(vs, pairs);
    var two := HasTwoTraces(vs);
    if !two { return compared, []; }
    if !compared { return compared, [NothingCompared]; }
    var seen := ByView(pairs);
    issues := [];
    var left := seen.Keys;
    while left != {}
      invariant left <= seen.Keys
      invariant issues == [] <==> forall k | k in seen && k !in left :: seen[k]
      decreases left
    {
      var k :| k in left;
      left := left - {k};
      if !seen[k] { issues := issues + [NoEvidence(k)]; }
    }
    EachListed(vs, pairs, seen);
  }

  lemma SomeListed(vs: seq<View>, pairs: seq<Pair>)
    requires Lists(pairs, Comparisons(vs))
    ensures (exists p :: p in pairs && p.evidence) <==> SomeEvidence(vs)
  {
    hide Comparisons, Evidence;
    if p :| p in pairs && p.evidence {
      var c :| c in Comparisons(vs) && Both(c) && p == PairFor(c);
      assert SomeEvidence(vs);
    }
    if SomeEvidence(vs) {
      var c :| c in Comparisons(vs) && Both(c) && Evidence(c);
      assert PairFor(c) in pairs;
    }
  }

  lemma SeenFor(vs: seq<View>, pairs: seq<Pair>, seen: map<Who, bool>, c: Comparison, v: View)
    requires ViewsOk(vs) && Lists(pairs, Comparisons(vs)) && SeenAs(pairs, seen, Name(v))
    requires c in Comparisons(vs) && (v == c.a || v == c.b)
    ensures Name(v) in seen && (seen[Name(v)] <==> Evident(vs, v))
  {
    CompareBoth(vs);
    hide ViewsOk, Comparisons, Evidence, HasTrace, Evident;
    assert PairFor(c) in pairs && Mentions(PairFor(c), Name(v));
    ListedFor(vs, pairs, v);
  }

  lemma SeenOf(vs: seq<View>, pairs: seq<Pair>, k: Who) returns (c: Comparison)
    requires Lists(pairs, Comparisons(vs)) && exists p :: p in pairs && Mentions(p, k)
    ensures c in Comparisons(vs) && (k == Name(c.a) || k == Name(c.b))
  {
    hide Comparisons, Evidence;
    var p :| p in pairs && Mentions(p, k);
    c :| c in Comparisons(vs) && Both(c) && p == PairFor(c);
  }

  lemma EachListed(vs: seq<View>, pairs: seq<Pair>, seen: map<Who, bool>)
    requires ViewsOk(vs) && Lists(pairs, Comparisons(vs)) && forall k :: SeenAs(pairs, seen, k)
    ensures (forall k | k in seen :: seen[k]) <==> EachEvident(vs)
  {
    hide ViewsOk, Comparisons, Evidence, HasTrace, Evident, Lists, Mentions;
    forall c, v | c in Comparisons(vs) && (v == c.a || v == c.b)
      ensures Name(v) in seen && (seen[Name(v)] <==> Evident(vs, v))
    {
      SeenFor(vs, pairs, seen, c, v);
    }
    hide Name;
    if EachEvident(vs) {
      forall k | k in seen
        ensures seen[k]
      {
        assert SeenAs(pairs, seen, k);
        var c := SeenOf(vs, pairs, k);
      }
    }
  }

  lemma ListedFor(vs: seq<View>, pairs: seq<Pair>, v: View)
    requires ViewsOk(vs) && Lists(pairs, Comparisons(vs)) && v in vs
    ensures (exists p :: p in pairs && Mentions(p, Name(v)) && p.evidence) <==> Evident(vs, v)
  {
    CompareBoth(vs);
    hide ViewsOk, Comparisons, Evidence, HasTrace;
    if p :| p in pairs && Mentions(p, Name(v)) && p.evidence {
      var c :| c in Comparisons(vs) && Both(c) && p == PairFor(c);
      if p.a == Name(v) { OneView(vs, c.a, v); } else { OneView(vs, c.b, v); }
      assert Evident(vs, v);
    }
    if Evident(vs, v) {
      var c :| c in Comparisons(vs) && Both(c) && Evidence(c) && (c.a == v || c.b == v);
      assert PairFor(c) in pairs;
    }
  }

  /** A compared bit that is the same on both sides. */
  ghost predicate SameBit(c: Comparison)
    requires Both(c)
  {
    exists x :: Counted(Part(c.a, c.b), Part(c.b, c.a), c.expected, c.ax, c.bx, x)
                && BitOf(Part(c.a, c.b).samples[x.at][x.port], x.bit) == BitOf(Part(c.b, c.a).samples[x.at][x.port], x.bit)
  }

  /** A configuration that both ran, as far as both list theirs, without a sample on either side. */
  ghost predicate Unsampled(c: Comparison, g: string)
    requires Both(c)
  {
    && Shared(c.a, c.b).Some? && g in Shared(c.a, c.b).value
    && g !in Sampled(Part(c.a, c.b)) && g !in Sampled(Part(c.b, c.a))
    && (c.a.configs.Some? ==> Rejects(c.a, g).Some?) && (c.b.configs.Some? ==> Rejects(c.b, g).Some?)
  }

  /** No rejection that the other side must share is accepted there. */
  predicate NotOpposed(c: Comparison, g: string) {
    && !(Rejects(c.a, g) == Some(true) && Rejects(c.b, g) == Some(false))
    && (!c.expected ==> !(Rejects(c.a, g) == Some(false) && Rejects(c.b, g) == Some(true)))
  }

  /** An agreement on a rejection. */
  ghost predicate SameRejection(c: Comparison, reject: set<string>)
    requires Both(c)
  {
    exists g :: Unsampled(c, g) && (g in reject && c.b.runner != Hw ==> NotOpposed(c, g))
  }

  lemma {:induction false} RanOutcome(cs: seq<(string, Status)>, g: string)
    requires exists c :: c in cs && RanStatus(c.1) && c.0 == g
    ensures Outcome(cs, g).Some?
    decreases |cs|
  {
    var n := |cs| - 1;
    if cs[n].0 != g || !RanStatus(cs[n].1) {
      assert cs == cs[..n] + [cs[n]];
      RanOutcome(cs[..n], g);
    }
  }

  lemma RanRejects(v: View, g: string)
    requires v.configs.Some? && g in Ran(v).value
    ensures Rejects(v, g).Some?
  {
    RanOutcome(v.configs.value, g);
  }

  /** What consistency means of one comparison. */
  ghost predicate Holds(c: Comparison, reject: set<string>)
    requires Both(c)
  {
    if c.expected then
      && Conforms(Part(c.a, c.b), Part(c.b, c.a), c.bx)
      && (c.b.runner != Hw ==> forall g | g in reject && Rejects(c.a, g) == Some(true) :: Rejects(c.b, g) != Some(false))
    else Agree(Part(c.a, c.b), Part(c.b, c.a), c.ax, c.bx) && RejectionDiff(c.a, c.b, reject) == {}
  }

  lemma ConsistentHolds(vs: seq<View>, c: Comparison)
    requires Consistent(vs) && c in Comparisons(vs)
    ensures Both(c) && Holds(c, RejectCfgs(vs))
  {
    hide Conforms, Agree, Part, RejectionDiff, RejectCfgs, Rejects, HasTrace;
    CompareBoth(vs);
  }

  lemma HoldsSameBit(c: Comparison, reject: set<string>)
    requires Both(c) && Holds(c, reject) && ComparesABit(c)
    ensures SameBit(c)
  {
    hide Part, RejectionDiff;
    var ta, tb := Part(c.a, c.b), Part(c.b, c.a);
    var x :| Counted(ta, tb, c.expected, c.ax, c.bx, x);
    assert BitOf(ta.samples[x.at][x.port], x.bit) == BitOf(tb.samples[x.at][x.port], x.bit);
  }

  lemma HoldsSameRejection(c: Comparison, reject: set<string>)
    requires Both(c) && Holds(c, reject) && RejectAgreement(Part(c.a, c.b), Part(c.b, c.a), Shared(c.a, c.b))
    ensures SameRejection(c, reject)
  {
    hide Part, Conforms, Agree, Rejects, Sampled;
    var g :| g in Shared(c.a, c.b).value - (Sampled(Part(c.a, c.b)) + Sampled(Part(c.b, c.a)));
    if c.a.configs.Some? { RanRejects(c.a, g); }
    if c.b.configs.Some? { RanRejects(c.b, g); }
    assert Unsampled(c, g);
    assert g in reject && c.b.runner != Hw && !c.expected && !NotOpposed(c, g) ==> g in RejectionDiff(c.a, c.b, reject);
  }

  /** What evidence of a consistent result means: in some comparison of it a bit was compared and is the
      same on both sides, or both agree on a rejection. */
  lemma EvidenceMeans(vs: seq<View>, v: View)
    requires Consistent(vs) && Evident(vs, v)
    ensures exists c :: c in Comparisons(vs) && (c.a == v || c.b == v) && Both(c) && (SameBit(c) || SameRejection(c, RejectCfgs(vs)))
  {
    hide Consistent, Comparisons, RejectCfgs, Holds, SameBit, SameRejection, ComparesABit, RejectAgreement;
    var c :| c in Comparisons(vs) && Both(c) && Evidence(c) && (c.a == v || c.b == v);
    ConsistentHolds(vs, c);
    if ComparesABit(c) { HoldsSameBit(c, RejectCfgs(vs)); } else { HoldsSameRejection(c, RejectCfgs(vs)); }
  }

  // ---- single results --------------------------------------------------------------------------------

  /** The result of a runner in a flow, with or without a trace. */
  function At(vs: seq<View>, flow: string, r: Runner): (f: Option<View>)
    ensures f.Some? ==> f.value in vs && f.value.flow == flow && f.value.runner == r
    ensures f.None? ==> forall v | v in vs :: v.flow != flow || v.runner != r
  {
    if vs == [] then None
    else if vs[0].flow == flow && vs[0].runner == r then Some(vs[0])
    else
      var f := At(vs[1..], flow, r);
      assert forall v :: v in vs <==> v == vs[0] || v in vs[1..];
      f
  }

  datatype Gap = Missing | Unlike | Failing

  predicate BothTraced(vz: Option<View>, iv: Option<View>) { vz.Some? && iv.Some? && HasTrace(vz.value) && HasTrace(iv.value) }

  /** The transformed source gives the same traces and rejections. */
  ghost predicate Alike(vz: View, iv: View)
    requires HasTrace(vz) && HasTrace(iv)
  {
    Together(iv, vz, RejectCfgs([iv, vz]), true, true)
  }

  /** A pass of verilator is confirmed by the transformed source under iverilog. */
  ghost predicate Confirmed(vz: Option<View>, iv: Option<View>) {
    && vz.Some? && RanStatus(vz.value.status)
    && (if BothTraced(vz, iv) then Alike(vz.value, iv.value) else vz.value.status == Pass)
  }

  /** `companion_gap`. */
  method CompanionGap(vz: Option<View>, iv: Option<View>) returns (gap: Option<Gap>)
    requires (vz.Some? && vz.value.trace.Some? ==> Traced(vz.value)) && (iv.Some? && iv.value.trace.Some? ==> Traced(iv.value))
    ensures gap.None? <==> Confirmed(vz, iv)
    ensures gap == Some(Missing) <==> vz.None? || vz.value.status == NotRun
    ensures gap == Some(Unlike) <==> vz.Some? && RanStatus(vz.value.status) && BothTraced(vz, iv) && !Alike(vz.value, iv.value)
  {
    hide TraceOk, Together, PairTold, Lists, RejectCfgs;
    if vz.None? || vz.value.status == NotRun { return Some(Missing); }
    if !RanStatus(vz.value.status) { return Some(Failing); }
    if BothTraced(vz, iv) {
      var reject := RejectCfgs([iv.value, vz.value]);
      var points, _ := ComparePair(iv.value, vz.value, true, true, reject);
      if points == [] { ToldAgree(iv.value, vz.value, true, true, reject); }
      return if points != [] then Some(Unlike) else None;
    }
    gap := if vz.value.status == Pass then None else Some(Failing);
  }

  /** The class before marking. */
  function ClassOf(f: Finding): FindingClass { if f.knownOf.Some? then f.knownOf.value else f.cls }

  predicate ValueClass(c: FindingClass) { c in {SimDivergence, DocVsModel, DocGap, TransformBug, FlowMismatch, SiliconMismatch} }

  predicate Applies(f: Finding, v: View) { f.flow == v.flow && (f.source == v.source || f.source.None?) }

  predicate Explains(f: Finding, v: View) { ValueClass(ClassOf(f)) && v.runner in f.runners && Applies(f, v) }

  predicate Explained(v: View, fs: seq<Finding>) { exists f :: f in fs && Explains(f, v) }

  function Failed(v: View): Option<set<string>> {
    if v.configs.None? then None else Some(set c | c in v.configs.value && c.1 == Fail :: c.0)
  }

  /** `_companion_explained`: iverilog fails too, explained, on all the configurations that fail here, and
      nothing separates the two. */
  predicate CompanionExplained(v: View, fs: seq<Finding>, vs: seq<View>) {
    var iv := At(vs, v.flow, Iverilog);
    && v.runner == IverilogVz && iv.Some? && iv.value.status == Fail && Explained(iv.value, fs)
    && (Failed(v).Some? ==> Failed(v).value != {} && Failed(iv.value).Some? && Failed(v).value <= Failed(iv.value).value)
    && !exists f :: f in fs && ClassOf(f) == TransformBug && Applies(f, v)
  }

  predicate NoError(v: View) { v.status != Error && (v.configs.Some? ==> forall c | c in v.configs.value :: c.1 != Error) }

  predicate FailExplained(v: View, fs: seq<Finding>, vs: seq<View>) {
    v.status == Fail ==> Explained(v, fs) || CompanionExplained(v, fs, vs)
  }

  /** `_result_issues`. */
  method ResultIssues(v: View, fs: seq<Finding>, classified: bool, vs: seq<View>) returns (issues: seq<Issue>)
    ensures issues == [] <==> NoError(v) && (classified ==> FailExplained(v, fs, vs))
  {
    hide Explained, CompanionExplained;
    issues := [];
    if v.configs.Some? {
      var cs := v.configs.value;
      for i := 0 to |cs|
        invariant issues == [] <==> forall k :: 0 <= k < i ==> cs[k].1 != Error
      {
        if cs[i].1 == Error { issues := issues + [ConfigError(Name(v), cs[i].0)]; }
      }
      assert forall k :: 0 <= k < |cs| ==> cs[k] in cs;
    }
    if issues != [] { return; }
    if v.status == Error { return [ResultError(Name(v))]; }
    if classified && v.status == Fail && !Explained(v, fs) && !CompanionExplained(v, fs, vs) { return [Unexplained(Name(v))]; }
  }

  method AllResultIssues(vs: seq<View>, fs: seq<Finding>, classified: bool) returns (issues: seq<Issue>)
    ensures issues == [] <==> forall v | v in vs :: NoError(v) && (classified ==> FailExplained(v, fs, vs))
  {
    hide NoError, FailExplained;
    issues := [];
    for i := 0 to |vs|
      invariant issues == [] <==> forall v | v in vs[..i] :: NoError(v) && (classified ==> FailExplained(v, fs, vs))
    {
      assert vs[..i + 1] == vs[..i] + [vs[i]];
      var more := ResultIssues(vs[i], fs, classified, vs);
      issues := issues + more;
    }
    assert vs[..|vs|] == vs;
  }

  /** The configurations the golden model ran. */
  function GoldenRan(vs: seq<View>): set<string> {
    var e := At(vs, "rtl", Python);
    if e.Some? && RanStatus(e.value.status) && Ran(e.value).Some? then Ran(e.value).value else {}
  }

  function Listed(v: View): set<string> { if v.configs.None? then {} else set c | c in v.configs.value :: c.0 }

  /** A result with configurations lists every one that the golden model ran. */
  predicate Covered(vs: seq<View>, v: View) { v.runner != Python && Listed(v) != {} ==> GoldenRan(vs) <= Listed(v) }

  method AbsentIssues(vs: seq<View>, v: View) returns (issues: seq<Issue>)
    ensures issues == [] <==> Covered(vs, v)
  {
    hide GoldenRan, Listed;
    issues := [];
    if v.runner == Python || Listed(v) == {} { return; }
    var left := GoldenRan(vs) - Listed(v);
    ghost var all := left;
    assert forall c :: c in all <==> c in GoldenRan(vs) && c !in Listed(v);
    while left != {}
      invariant issues == [] <==> left == all
      invariant left <= all
      decreases left
    {
      var c :| c in left;
      assert left - {c} != all;
      issues, left := issues + [Absent(Name(v), c)], left - {c};
    }
  }

  /** The issues of `_config_coverage`. */
  method ConfigIssues(vs: seq<View>) returns (issues: seq<Issue>)
    ensures issues == [] <==> forall v | v in vs :: Covered(vs, v)
  {
    hide Covered;
    issues := [];
    for i := 0 to |vs|
      invariant issues == [] <==> forall v | v in vs[..i] :: Covered(vs, v)
    {
      assert vs[..i + 1] == vs[..i] + [vs[i]];
      var more := AbsentIssues(vs, vs[i]);
      issues := issues + more;
    }
    assert vs[..|vs|] == vs;
  }

  ghost predicate PassConfirmed(vs: seq<View>, v: View) {
    v.runner == Verilator && v.status == Pass ==> Confirmed(At(vs, v.flow, IverilogVz), At(vs, v.flow, Iverilog))
  }

  method CompanionIssue(vs: seq<View>, v: View) returns (issues: seq<Issue>)
    requires ViewsOk(vs)
    ensures issues == [] <==> PassConfirmed(vs, v)
  {
    hide Confirmed, TraceOk;
    issues := [];
    if v.runner == Verilator && v.status == Pass {
      var gap := CompanionGap(At(vs, v.flow, IverilogVz), At(vs, v.flow, Iverilog));
      if gap.Some? { issues := [Unconfirmed(Name(v))]; }
    }
  }

  method CompanionIssues(vs: seq<View>) returns (issues: seq<Issue>)
    requires ViewsOk(vs)
    ensures issues == [] <==> forall v | v in vs :: PassConfirmed(vs, v)
  {
    hide PassConfirmed, ViewsOk;
    issues := [];
    for i := 0 to |vs|
      invariant issues == [] <==> forall v | v in vs[..i] :: PassConfirmed(vs, v)
    {
      assert vs[..i + 1] == vs[..i] + [vs[i]];
      var more := CompanionIssue(vs, vs[i]);
      issues := issues + more;
    }
    assert vs[..|vs|] == vs;
  }

  // ---- the verdict -----------------------------------------------------------------------------------

  datatype Verdict = NeverRun | Uncompared | Agreeing | Known | Incomplete | Divergent

  /** The report of a test: findings and issues of all its model sources, whether anything was compared,
      and whether there is any result. */
  datatype Report = Report(findings: seq<Finding>, issues: seq<Issue>, compared: bool, results: bool)

  predicate Unlisted(fs: seq<Finding>) { exists f :: f in fs && f.cls != KnownDivergence }

  function VerdictOf(r: Report): Verdict {
    if Unlisted(r.findings) then Divergent
    else if r.issues != [] then Incomplete
    else if r.findings != [] then Known
    else if r.compared then Agreeing
    else if r.results then Uncompared else NeverRun
  }

  /** `exit_code`. */
  function ExitCode(r: Report): int { if Unlisted(r.findings) then 3 else if r.issues != [] then 4 else 0 }

  /** One model source: not classified when its results were not all measured at one clean tree. */
  datatype Gathered = Gathered(views: seq<View>, stale: bool)

  /** Nothing about a model source stays open, `fs` being its findings. */
  ghost predicate Settled(g: Gathered, fs: seq<Finding>) {
    && !g.stale && EvidenceOk(g.views)
    && forall v | v in g.views :: NoError(v) && FailExplained(v, fs, g.views) && Covered(g.views, v) && PassConfirmed(g.views, v)
  }

  /** A model source whose results all agree, with evidence, and none of which is an error or a fail. */
  ghost predicate Fine(g: Gathered) { Consistent(g.views) && Settled(g, []) }

  /** What is found of one model source: unless it is stale, every disagreement of it, with its evidence;
      and with no issue nothing stays open. */
  ghost predicate SourceTold(g: Gathered, fs: seq<Finding>, issues: seq<Issue>) {
    && (!g.stale ==> exists raw :: Classified(g.views, raw, fs, issues))
    && (issues == [] ==> Settled(g, fs))
  }

  ghost predicate Classified(vs: seq<View>, raw: seq<Finding>, out: seq<Finding>, issues: seq<Issue>) {
    ViewsOk(vs) && NothingDropped(vs, raw, issues) && AllKept(raw, out)
  }

  lemma ClassifiedMore(vs: seq<View>, raw: seq<Finding>, out: seq<Finding>, issues: seq<Issue>, more: seq<Issue>)
    requires Classified(vs, raw, out, issues) && issues <= more
    ensures Classified(vs, raw, out, more)
  {
    hide ViewsOk, FlowKept, ViewDone, AllKept, Flows;
    forall flow | flow in Flows(vs)
      ensures FlowKept(vs, flow, raw, more)
    {
      KeptMore(vs, flow, raw, raw, issues, more);
    }
  }

  /** The body of the loop over the model sources. */
  method CheckSource(g: Gathered, entries: seq<Expected>, want: FindingClass -> string)
    returns (out: seq<Finding>, issues: seq<Issue>, compared: bool)
    requires ViewsOk(g.views)
    ensures out == [] && issues == [] <==> Fine(g)
    ensures SourceTold(g, out, issues)
    ensures compared <==> !g.stale && SomeEvidence(g.views)
  {
    hide ViewsOk, Consistent, SomeEvidence, EvidenceOk, NoError, FailExplained, Covered, PassConfirmed, Lists, Comparisons,
      NothingDropped, AllKept;
    if g.stale {
      var more := AllResultIssues(g.views, [], false);
      return [], [Stale] + more, false;
    }
    ghost var raw;
    var some, pairs;
    raw, out, some, pairs := Classify(g.views, entries, want);
    var evidence;
    compared, evidence := EvidenceIssues(g.views, pairs);
    var companion := CompanionIssues(g.views);
    var config := ConfigIssues(g.views);
    var result := AllResultIssues(g.views, out, true);
    issues := some + (evidence + companion + config + result);
    ClassifiedMore(g.views, raw, out, some, issues);
    assert issues == [] <==> some == [] && evidence == [] && companion == [] && config == [] && result == [] by {
      assert |issues| == |some| + |evidence| + |companion| + |config| + |result|;
    }
  }

  /** The issues about the entries themselves. */
  method EntryIssues(entries: seq<Expected>) returns (issues: seq<Issue>)
    ensures issues == [] <==> forall e | e in entries :: e.open
  {
    issues := [];
    for i := 0 to |entries|
      invariant issues == [] <==> forall k :: 0 <= k < i ==> entries[k].open
    {
      if !entries[i].open { issues := issues + [NotOpen(entries[i].id)]; }
    }
    assert forall k :: 0 <= k < |entries| ==> entries[k] in entries;
  }

  /** All that is found of a model source is in the report. */
  ghost predicate SourceReported(g: Gathered, findings: seq<Finding>, issues: seq<Issue>) {
    exists fs, some :: SourceTold(g, fs, some) && (forall f | f in fs :: f in findings) && forall x | x in some :: x in issues
  }

  lemma ReportedLater(g: Gathered, findings: seq<Finding>, laterF: seq<Finding>, issues: seq<Issue>, laterI: seq<Issue>)
    requires SourceReported(g, findings, issues) && (forall f | f in findings :: f in laterF) && forall x | x in issues :: x in laterI
    ensures SourceReported(g, laterF, laterI)
  {
    hide SourceTold;
    var fs, some :| SourceTold(g, fs, some) && (forall f | f in fs :: f in findings) && forall x | x in some :: x in issues;
    assert (forall f | f in fs :: f in laterF) && forall x | x in some :: x in laterI;
  }

  /** A model source whose every disagreement is reported as known, with nothing open. */
  ghost predicate OnlyKnown(g: Gathered, r: Report) {
    exists raw, fs :: Classified(g.views, raw, fs, []) && Settled(g, fs) && forall f | f in fs :: f in r.findings && f.cls == KnownDivergence
  }

  lemma KnownOnly(g: Gathered, r: Report)
    requires SourceReported(g, r.findings, r.issues) && VerdictOf(r) == Known
    ensures OnlyKnown(g, r)
  {
    hide Classified;
    var fs, some :| SourceTold(g, fs, some) && (forall f | f in fs :: f in r.findings) && forall x | x in some :: x in r.issues;
    assert some == [] by { if some != [] { HasMember(some); } }
  }

  lemma HasMember<T>(s: seq<T>)
    requires s != []
    ensures exists x :: x in s
  {
    assert s[0] in s;
  }

  /** `check`: the verdict is `agree` exactly when every model source is fine, every entry open, and something
      was compared. */
  method Check(all: seq<Gathered>, entries: seq<Expected>, want: FindingClass -> string) returns (r: Report)
    requires forall g | g in all :: ViewsOk(g.views)
    ensures VerdictOf(r) == Agreeing <==>
              (forall g | g in all :: Fine(g)) && (forall e | e in entries :: e.open) && exists g :: g in all && SomeEvidence(g.views)
    ensures VerdictOf(r) in {Agreeing, Uncompared, NeverRun} <==> (forall g | g in all :: Fine(g)) && forall e | e in entries :: e.open
    ensures VerdictOf(r) == Known ==> forall g | g in all :: OnlyKnown(g, r)
    ensures forall g | g in all :: SourceReported(g, r.findings, r.issues)
    ensures ExitCode(r) == 0 <==> VerdictOf(r) !in {Divergent, Incomplete}
  {
    hide ViewsOk, SomeEvidence, Settled, Consistent, SourceReported, SourceTold, OnlyKnown;
    var findings: seq<Finding>, issues: seq<Issue>, compared := [], [], false;
    for i := 0 to |all|
      invariant findings == [] && issues == [] <==> forall g | g in all[..i] :: Fine(g)
      invariant compared <==> exists g :: g in all[..i] && !g.stale && SomeEvidence(g.views)
      invariant forall g | g in all[..i] :: SourceReported(g, findings, issues)
    {
      var g := all[i];
      assert g in all && all[..i + 1] == all[..i] + [g];
      var out, some, more := CheckSource(g, entries, want);
      ghost var wasF, wasI := findings, issues;
      findings, issues, compared := findings + out, issues + some, compared || more;
      assert |findings| == |wasF| + |out| && |issues| == |wasI| + |some|;
      ReportedNow(g, out, some);
      forall x | x in all[..i + 1]
        ensures SourceReported(x, findings, issues)
      {
        if x in all[..i] { ReportedLater(x, wasF, findings, wasI, issues); } else { ReportedLater(g, out, findings, some, issues); }
      }
    }
    assert all[..|all|] == all;
    var more := EntryIssues(entries);
    r := Report(findings, issues + more, compared, all != []);
    assert |r.issues| == |issues| + |more|;
    forall g | Fine(g)
      ensures !g.stale
    {
      FineFresh(g);
    }
    forall g | g in all
      ensures SourceReported(g, r.findings, r.issues)
      ensures VerdictOf(r) == Known ==> OnlyKnown(g, r)
    {
      ReportedLater(g, findings, r.findings, issues, r.issues);
      if VerdictOf(r) == Known { KnownOnly(g, r); }
    }
  }

  lemma FineFresh(g: Gathered)
    requires Fine(g)
    ensures !g.stale
  {}

  lemma ReportedNow(g: Gathered, fs: seq<Finding>, issues: seq<Issue>)
    requires SourceTold(g, fs, issues)
    ensures SourceReported(g, fs, issues)
  {}
}
