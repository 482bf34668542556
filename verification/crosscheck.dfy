/** Cross-checking the results of a test (crosscheck.py): what is compared with what, and how every
    disagreement ends up in a finding or an issue. */
module Crosscheck {
  import opened Wrap
  import opened Traces

  datatype Runner = Python | Xsim | Iverilog | IverilogVz | Verilator | Hw

  datatype Status = Pass | Fail | Skip | Error | NotRun

  /** One runner's result for a test in one flow. `configs` is None for a synthetic view. */
  datatype View = View(flow: string, runner: Runner, status: Status, source: Option<string>, trace: Option<Trace>,
                       configs: Option<seq<(string, Status)>>, xDependence: bool, selftestFails: bool, repeatsDiffer: bool)

  datatype FindingClass = DocVsModel | DocGap | SimDivergence | XDependence | TransformBug | FlowMismatch | SiliconMismatch
                 | Nondeterminism | HarnessError | KnownDivergence

  /** One point of a finding: two results that differ, one simulator that differs from the golden model
      where others do not, a golden point every observer misses, a rejection not shared, or a flag. */
  datatype Point =
    | Differ(a: Runner, b: Runner, m: Mismatch)
    | OnlyOne(r: Runner, m: Mismatch)
    | Missed(m: Mismatch)
    | Rejection(a: Runner, b: Runner, cfg: string)
    | Accepted(cfg: string, accepting: set<Runner>)
    | Flag

  datatype Finding = Finding(cls: FindingClass, flow: string, source: Option<string>, runners: set<Runner>, points: seq<Point>, more: nat,
                             knownOf: Option<FindingClass>, id: Option<string>)

  /** A disagreement that is no finding, an entry that must not be matched or is not open, a lack of
      evidence, results of different trees, or something about a single result. */
  datatype Issue =
    | Structural(m: Mismatch)
    | NoProvenance(m: Mismatch)
    | WrongId(id: string)
    | NotOpen(id: string)
    | NothingCompared
    | NoEvidence(who: Who)
    | Stale
    | ConfigError(who: Who, cfg: string)
    | ResultError(who: Who)
    | Unexplained(who: Who)
    | Absent(who: Who, cfg: string)
    | Unconfirmed(who: Who)

  const MAX_POINTS := 200

  /** `_f`: at most `MAX_POINTS` points are kept, the rest counted. */
  function Found(cls: FindingClass, flow: string, source: Option<string>, runners: set<Runner>, points: seq<Point>): Finding {
    if |points| <= MAX_POINTS then Finding(cls, flow, source, runners, points, 0, None, None)
    else Finding(cls, flow, source, runners, points[..MAX_POINTS], |points| - MAX_POINTS, None, None)
  }

  // ---- views -----------------------------------------------------------------------------------------

  predicate Observes2(r: Runner) { r != Verilator && r != Hw }

  predicate Simulator(r: Runner) { r == Xsim || r == Iverilog || r == Verilator }

  predicate RanStatus(s: Status) { s == Pass || s == Fail }

  /** The configurations a result ran; None means all. */
  function Ran(v: View): Option<set<string>> {
    if v.configs.None? then None else Some(set c | c in v.configs.value && RanStatus(c.1) :: c.0)
  }

  predicate HasTrace(v: View) { v.trace.Some? && (Ran(v).None? || Ran(v).value != {}) }

  /** The configuration of a sample label. */
  function Cfg(l: string): string { if l == "" || l[0] == '/' then "" else [l[0]] + Cfg(l[1..]) }

  predicate Within(l: string, cfgs: Option<set<string>>) { cfgs.None? || Cfg(l) in cfgs.value }

  function Keep(ls: seq<string>, cfgs: Option<set<string>>): seq<string> {
    if ls == [] then [] else (if Within(ls[0], cfgs) then [ls[0]] else []) + Keep(ls[1..], cfgs)
  }

  /** `_restrict`. */
  function Restrict(t: Trace, cfgs: Option<set<string>>): Trace {
    Trace(Keep(t.labels, cfgs), map l | l in t.samples && Within(l, cfgs) :: t.samples[l],
          map l | l in t.prov && l in t.samples && Within(l, cfgs) :: t.prov[l])
  }

  lemma {:induction false} KeepIs(ls: seq<string>, cfgs: Option<set<string>>)
    ensures forall l :: l in Keep(ls, cfgs) <==> l in ls && Within(l, cfgs)
    ensures Distinct(ls) ==> Distinct(Keep(ls, cfgs))
  {
    if ls != [] {
      KeepIs(ls[1..], cfgs);
      assert ls == [ls[0]] + ls[1..];
      if Distinct(ls) {
        assert Distinct(ls[1..]);
        assert ls[0] !in ls[1..];
      }
    }
  }

  lemma RestrictOk(t: Trace, cfgs: Option<set<string>>)
    requires TraceOk(t)
    ensures TraceOk(Restrict(t, cfgs))
  {
    KeepIs(t.labels, cfgs);
  }

  /** The configurations both ran. */
  function Shared(a: View, b: View): Option<set<string>> {
    var ra, rb := Ran(a), Ran(b);
    if rb.None? then ra else if ra.None? then rb else Some(ra.value * rb.value)
  }

  /** `_pair`: what of `a` is compared with `b`. */
  function Part(a: View, b: View): Trace
    requires a.trace.Some?
  {
    Restrict(a.trace.value, Shared(a, b))
  }

  /** The outcome of a configuration a result ran: pass is a rejection, for a configuration that must be
      rejected; the last entry of a configuration counts. */
  function Outcome(cs: seq<(string, Status)>, cfg: string): Option<bool> {
    if cs == [] then None
    else if cs[|cs| - 1].0 == cfg && RanStatus(cs[|cs| - 1].1) then Some(cs[|cs| - 1].1 == Pass)
    else Outcome(cs[..|cs| - 1], cfg)
  }

  function Rejects(v: View, cfg: string): Option<bool> {
    if v.configs.None? then None else Outcome(v.configs.value, cfg)
  }

  /** `_reject_cfgs`: run by some result with a trace, and sampled by none. */
  function RejectCfgs(vs: seq<View>): set<string> {
    (set v, c | v in vs && HasTrace(v) && Ran(v).Some? && c in Ran(v).value :: c)
    - (set v, l | v in vs && HasTrace(v) && l in v.trace.value.labels :: Cfg(l))
  }

  /** `_rejection_diff`: where one rejects and the other accepts. */
  function RejectionDiff(a: View, b: View, reject: set<string>): set<string> {
    set c | c in reject && Rejects(a, c).Some? && Rejects(b, c).Some? && Rejects(a, c) != Rejects(b, c)
  }

  // ---- evidence --------------------------------------------------------------------------------------

  datatype Who = Who(flow: string, runner: Runner)

  function Name(v: View): Who { Who(v.flow, v.runner) }

  /** One comparison of two results; `expected`: `a` is the golden one; `ax` and `bx`: who sees an x or z. */
  datatype Comparison = Comparison(a: View, b: View, expected: bool, ax: bool, bx: bool)

  /** What is kept of a comparison. */
  datatype Pair = Pair(a: Who, b: Who, evidence: bool)

  datatype Place = Place(at: string, port: string, bit: nat)

  predicate BitCompared(ca: char, cb: char, expected: bool, ax: bool, bx: bool) {
    if expected then Compared(ca, bx) else !Excused(ca, cb, ax, bx)
  }

  predicate InValue(va: string, vb: string, expected: bool, ax: bool, bx: bool, i: nat) {
    i < |va| == |vb| && BitCompared(BitOf(va, i), BitOf(vb, i), expected, ax, bx)
  }

  /** A bit of both traces that is compared. */
  ghost predicate Counted(ta: Trace, tb: Trace, expected: bool, ax: bool, bx: bool, x: Place) {
    && x.at in ta.samples && x.at in tb.samples && x.port in ta.samples[x.at] && x.port in tb.samples[x.at]
    && InValue(ta.samples[x.at][x.port], tb.samples[x.at][x.port], expected, ax, bx, x.bit)
  }

  /** Exactly the compared bits. */
  ghost predicate CountedBits(ta: Trace, tb: Trace, expected: bool, ax: bool, bx: bool, bits: set<Place>) {
    forall x :: x in bits <==> Counted(ta, tb, expected, ax, bx, x)
  }

  method BitsOfPort(at: string, port: string, va: string, vb: string, expected: bool, ax: bool, bx: bool)
    returns (n: nat, ghost bits: set<Place>)
    requires |va| == |vb|
    ensures n == |bits| && forall x :: x in bits <==> x.at == at && x.port == port && InValue(va, vb, expected, ax, bx, x.bit)
  {
    hide BitCompared;
    n, bits := 0, {};
    for i := 0 to |va|
      invariant n == |bits|
      invariant forall x :: x in bits <==> x.at == at && x.port == port && x.bit < i && InValue(va, vb, expected, ax, bx, x.bit)
    {
      if BitCompared(BitOf(va, i), BitOf(vb, i), expected, ax, bx) {
        n, bits := n + 1, bits + {Place(at, port, i)};
      }
    }
  }

  method BitsOfSample(at: string, pa: map<string, string>, pb: map<string, string>, expected: bool, ax: bool, bx: bool)
    returns (n: nat, ghost bits: set<Place>)
    ensures n == |bits|
    ensures forall x :: x in bits <==> x.at == at && x.port in pa && x.port in pb && InValue(pa[x.port], pb[x.port], expected, ax, bx, x.bit)
  {
    hide BitCompared;
    n, bits := 0, {};
    var left := pa.Keys;
    while left != {}
      invariant left <= pa.Keys && n == |bits|
      invariant forall x :: x in bits <==> x.at == at && x.port in pa && x.port !in left && x.port in pb
                                           && InValue(pa[x.port], pb[x.port], expected, ax, bx, x.bit)
      decreases left
    {
      var p :| p in left;
      left := left - {p};
      if p in pb && |pa[p]| == |pb[p]| {
        var k, more := BitsOfPort(at, p, pa[p], pb[p], expected, ax, bx);
        assert bits !! more;
        n, bits := n + k, bits + more;
      }
    }
  }

  /** `_compared_bits`. */
  method ComparedBits(ta: Trace, tb: Trace, expected: bool, ax: bool, bx: bool) returns (n: nat, ghost bits: set<Place>)
    ensures n == |bits| && CountedBits(ta, tb, expected, ax, bx, bits)
  {
    hide InValue;
    n, bits := 0, {};
    var left := ta.samples.Keys;
    while left != {}
      invariant left <= ta.samples.Keys && n == |bits|
      invariant forall x :: x in bits <==> x.at !in left && Counted(ta, tb, expected, ax, bx, x)
      decreases left
    {
      var l :| l in left;
      left := left - {l};
      if l in tb.samples {
        var k, more := BitsOfSample(l, ta.samples[l], tb.samples[l], expected, ax, bx);
        assert bits !! more;
        n, bits := n + k, bits + more;
      }
    }
  }

  /** The configurations of the samples. */
  function Sampled(t: Trace): set<string> { set l | l in t.samples :: Cfg(l) }

  /** `_reject_agreement`: a configuration both ran with no sample on either side. */
  predicate RejectAgreement(ta: Trace, tb: Trace, common: Option<set<string>>) {
    common.Some? && common.value - (Sampled(ta) + Sampled(tb)) != {}
  }

  ghost predicate ComparesABit(c: Comparison)
    requires c.a.trace.Some? && c.b.trace.Some?
  {
    exists x :: Counted(Part(c.a, c.b), Part(c.b, c.a), c.expected, c.ax, c.bx, x)
  }

  /** A comparison that is evidence: a shared configuration, and a compared bit or an agreed rejection. */
  ghost predicate Evidence(c: Comparison)
    requires c.a.trace.Some? && c.b.trace.Some?
  {
    && (Shared(c.a, c.b).None? || Shared(c.a, c.b).value != {})
    && (ComparesABit(c) || RejectAgreement(Part(c.a, c.b), Part(c.b, c.a), Shared(c.a, c.b)))
  }

  ghost predicate Both(c: Comparison) { c.a.trace.Some? && c.b.trace.Some? }

  ghost function PairFor(c: Comparison): Pair
    requires Both(c)
  {
    Pair(Name(c.a), Name(c.b), Evidence(c))
  }

  /** The pairs are those of the comparisons. */
  ghost predicate Lists(pairs: seq<Pair>, cs: set<Comparison>) {
    && (forall c | c in cs :: Both(c) && PairFor(c) in pairs)
    && (forall p | p in pairs :: exists c :: c in cs && Both(c) && p == PairFor(c))
  }

  lemma ListsNone(cs: set<Comparison>)
    requires cs == {}
    ensures Lists([], cs)
  {}

  lemma ListsJoin(p: seq<Pair>, c: set<Comparison>, q: seq<Pair>, d: set<Comparison>)
    requires Lists(p, c) && Lists(q, d)
    ensures Lists(p + q, c + d)
  {
    hide PairFor, Both;
    forall x | x in p + q
      ensures exists y :: y in c + d && Both(y) && x == PairFor(y)
    {
      if x in p {
        var y :| y in c && Both(y) && x == PairFor(y);
        assert y in c + d;
      } else {
        var y :| y in d && Both(y) && x == PairFor(y);
        assert y in c + d;
      }
    }
  }

  /** The part of `_pair` that lists the comparison. */
  method ListPair(a: View, b: View, expected: bool, ax: bool, bx: bool) returns (pairs: seq<Pair>)
    requires a.trace.Some? && b.trace.Some?
    ensures Lists(pairs, {Comparison(a, b, expected, ax, bx)})
  {
    hide Counted, Part, RejectAgreement, Shared;
    ghost var c := Comparison(a, b, expected, ax, bx);
    var common := Shared(a, b);
    var n, bits := ComparedBits(Part(a, b), Part(b, a), expected, ax, bx);
    assert n > 0 <==> ComparesABit(c) by {
      if bits != {} {
        var x :| x in bits;
        assert ComparesABit(c);
      }
    }
    var shared := common.None? || common.value != {};
    var pair := Pair(Name(a), Name(b), shared && (n > 0 || RejectAgreement(Part(a, b), Part(b, a), common)));
    assert pair == PairFor(c);
    pairs := [pair];
    assert c in {c} && Both(c);
  }

  // ---- what must agree -------------------------------------------------------------------------------

  ghost predicate ViewsOk(vs: seq<View>) {
    && (forall v | v in vs && v.trace.Some? :: TraceOk(v.trace.value))
    && (forall i, j :: 0 <= i < j < |vs| ==> vs[i].flow != vs[j].flow || vs[i].runner != vs[j].runner)
  }

  /** Two results agree: on every sample, port and observable bit of the configurations both ran, and on
      every rejection. */
  ghost predicate Together(a: View, b: View, reject: set<string>, ax: bool, bx: bool)
    requires a.trace.Some? && b.trace.Some?
  {
    Agree(Part(a, b), Part(b, a), ax, bx) && RejectionDiff(a, b, reject) == {}
  }

  predicate Golden(v: View) { v.flow == "rtl" && v.runner == Python && HasTrace(v) }

  /** A simulator does as the golden model predicts. */
  ghost predicate AsPredicted(e: View, v: View, reject: set<string>)
    requires e.trace.Some? && v.trace.Some?
  {
    && Conforms(Part(e, v), Part(v, e), Observes2(v.runner))
    && forall c | c in reject && Rejects(e, c) == Some(true) :: Rejects(v, c) != Some(false)
  }

  /** Everything that is compared agrees. */
  ghost predicate Consistent(vs: seq<View>) {
    var reject := RejectCfgs(vs);
    && (forall u, v | u in vs && v in vs && HasTrace(u) && HasTrace(v) && u.flow == v.flow && Before(u.runner, v.runner) ::
          Together(u, v, reject, Observes2(u.runner), Observes2(v.runner)))
    && (forall e, v | e in vs && v in vs && Golden(e) && v.flow == "rtl" && Simulator(v.runner) && HasTrace(v) :: AsPredicted(e, v, reject))
    && (forall u, v | u in vs && v in vs && HasTrace(u) && HasTrace(v) && u.flow == v.flow && u.runner == Iverilog && v.runner == IverilogVz ::
          Together(u, v, reject, true, true))
    && (forall u, v | u in vs && v in vs && HasTrace(u) && HasTrace(v) && u.flow == "rtl" && v.flow != "rtl" && u.runner == v.runner
                      && Simulator(v.runner) :: Together(u, v, reject, Observes2(v.runner), Observes2(v.runner)))
    && (forall v | v in vs && v.runner == Verilator :: !v.xDependence)
    && (forall v | v in vs && v.runner == Hw :: !v.selftestFails && !v.repeatsDiffer)
    && (forall e, v | e in vs && v in vs && Golden(e) && v.runner == Hw && HasTrace(v) :: Conforms(Part(e, v), Part(v, e), false))
  }

  /** The simulators in the order of their names. */
  predicate Before(a: Runner, b: Runner) { (a == Iverilog && (b == Verilator || b == Xsim)) || (a == Verilator && b == Xsim) }

  // ---- two results -----------------------------------------------------------------------------------

  /** What a comparison of two results must report. */
  ghost predicate Differs(a: View, b: View, ax: bool, bx: bool, m: Mismatch)
    requires a.trace.Some? && b.trace.Some?
  {
    DiffPort(Part(a, b), Part(b, a), ax, bx, m) || DiffSample(Part(a, b), Part(b, a), m)
  }

  ghost predicate Misorders(a: View, b: View, m: Mismatch)
    requires a.trace.Some? && b.trace.Some?
  {
    OrderMismatched(Part(a, b), Part(b, a), m)
  }

  /** All of the disagreements of two results are among the points. */
  ghost predicate PairTold(a: View, b: View, ax: bool, bx: bool, reject: set<string>, points: seq<Point>)
    requires a.trace.Some? && b.trace.Some?
  {
    && (forall m | Differs(a, b, ax, bx, m) :: Differ(a.runner, b.runner, m) in points)
    && (!InOrder(Part(a, b), Part(b, a)) ==> exists m :: Misorders(a, b, m) && Differ(a.runner, b.runner, m) in points)
    && (forall c | c in RejectionDiff(a, b, reject) :: Rejection(a.runner, b.runner, c) in points)
  }

  ghost predicate Traced(v: View) { v.trace.Some? && TraceOk(v.trace.value) }

  ghost predicate AllTraced(vs: seq<View>) { forall v | v in vs :: v.trace.Some? && TraceOk(v.trace.value) }

  lemma ToldAgree(a: View, b: View, ax: bool, bx: bool, reject: set<string>)
    requires Traced(a) && Traced(b) && PairTold(a, b, ax, bx, reject, [])
    ensures Together(a, b, reject, ax, bx)
  {
    RestrictOk(a.trace.value, Shared(a, b));
    RestrictOk(b.trace.value, Shared(b, a));
    hide DiffPort, DiffSample, OrderMismatched, InOrder, TraceOk, Agree, Part, RejectionDiff;
    assert DiffComplete([], Part(a, b), Part(b, a), ax, bx) by {
      forall m
        ensures !DiffPort(Part(a, b), Part(b, a), ax, bx, m) && !DiffSample(Part(a, b), Part(b, a), m)
      {
        assert !Differs(a, b, ax, bx, m);
      }
    }
    DiffExact([], Part(a, b), Part(b, a), ax, bx);
  }

  lemma ToldMore(a: View, b: View, ax: bool, bx: bool, reject: set<string>, points: seq<Point>, more: seq<Point>)
    requires a.trace.Some? && b.trace.Some? && PairTold(a, b, ax, bx, reject, points) && forall p | p in points :: p in more
    ensures PairTold(a, b, ax, bx, reject, more)
  {
    hide Differs, Misorders, InOrder, Part, RejectionDiff;
  }

  method DifferPoints(a: Runner, b: Runner, ms: seq<Mismatch>) returns (points: seq<Point>)
    ensures |points| == |ms| && forall k :: 0 <= k < |ms| ==> points[k] == Differ(a, b, ms[k])
  {
    points := [];
    for i := 0 to |ms|
      invariant |points| == i && forall k :: 0 <= k < i ==> points[k] == Differ(a, b, ms[k])
    {
      points := points + [Differ(a, b, ms[i])];
    }
  }

  method RejectionPoints(a: Runner, b: Runner, cfgs: set<string>) returns (points: seq<Point>)
    ensures forall c | c in cfgs :: Rejection(a, b, c) in points
    ensures forall p | p in points :: p.Rejection? && p.cfg in cfgs
  {
    points := [];
    var left := cfgs;
    ghost var done: set<string> := {};
    while left != {}
      invariant left + done == cfgs
      invariant forall c | c in done :: Rejection(a, b, c) in points
      invariant forall p | p in points :: p.Rejection? && p.cfg in cfgs
      decreases left
    {
      var c :| c in left;
      points, left, done := points + [Rejection(a, b, c)], left - {c}, done + {c};
    }
  }

  /** A mismatch or a rejection at the spot is among the points. */
  predicate TellsSpot(points: seq<Point>, m: Mismatch) {
    exists p :: p in points && p.Differ? && p.m.at == m.at && p.m.port == m.port && p.m.bit == m.bit
  }

  predicate TellsRejection(points: seq<Point>, c: string) { exists p :: p in points && p.Rejection? && p.cfg == c }

  lemma PairPoints(a: View, b: View, ax: bool, bx: bool, reject: set<string>, ms: seq<Mismatch>, first: seq<Point>, second: seq<Point>)
    requires a.trace.Some? && b.trace.Some? && DiffComplete(ms, Part(a, b), Part(b, a), ax, bx)
    requires |first| == |ms| && forall k :: 0 <= k < |ms| ==> first[k] == Differ(a.runner, b.runner, ms[k])
    requires forall c | c in RejectionDiff(a, b, reject) :: Rejection(a.runner, b.runner, c) in second
    ensures PairTold(a, b, ax, bx, reject, first + second)
  {
    hide DiffPort, DiffSample, OrderMismatched, InOrder, Part, RejectionDiff;
    var points := first + second;
    forall m | m in ms
      ensures Differ(a.runner, b.runner, m) in points
    {
      var k :| 0 <= k < |ms| && ms[k] == m;
      assert points[k] == Differ(a.runner, b.runner, m);
    }
    if !InOrder(Part(a, b), Part(b, a)) {
      var m :| m in ms && OrderMismatched(Part(a, b), Part(b, a), m);
      assert Misorders(a, b, m);
    }
  }

  /** The points of one pair of results, and the comparison. */
  method ComparePair(a: View, b: View, ax: bool, bx: bool, reject: set<string>) returns (points: seq<Point>, pairs: seq<Pair>)
    requires Traced(a) && Traced(b)
    ensures PairTold(a, b, ax, bx, reject, points)
    ensures points != [] ==> !Together(a, b, reject, ax, bx)
    ensures Lists(pairs, {Comparison(a, b, false, ax, bx)})
  {
    RestrictOk(a.trace.value, Shared(a, b));
    RestrictOk(b.trace.value, Shared(b, a));
    hide DiffComplete, TraceOk, Part, Agree, RejectionDiff, PairTold, Lists;
    pairs := ListPair(a, b, false, ax, bx);
    var ms := Diff(Part(a, b), Part(b, a), ax, bx);
    DiffExact(ms, Part(a, b), Part(b, a), ax, bx);
    var first := DifferPoints(a.runner, b.runner, ms);
    var second := RejectionPoints(a.runner, b.runner, RejectionDiff(a, b, reject));
    PairPoints(a, b, ax, bx, reject, ms, first, second);
    points := first + second;
    if second != [] { assert second[0] in second; }
  }

  // ---- the simulators of one flow --------------------------------------------------------------------

  /** The view of a runner in a flow, when it has a trace. */
  function Find(vs: seq<View>, flow: string, r: Runner): (f: Option<View>)
    ensures f.Some? ==> f.value in vs && f.value.flow == flow && f.value.runner == r && HasTrace(f.value) && f.value.trace.Some?
    ensures f.None? ==> forall v | v in vs && v.flow == flow && v.runner == r :: !HasTrace(v)
  {
    if vs == [] then None
    else if vs[0].flow == flow && vs[0].runner == r && HasTrace(vs[0]) then Some(vs[0])
    else
      var f := Find(vs[1..], flow, r);
      assert forall v :: v in vs <==> v == vs[0] || v in vs[1..];
      f
  }

  function Opt(v: Option<View>): seq<View> { if v.Some? then [v.value] else [] }

  /** The simulators of a flow with a trace, in the order of their names. */
  function Group(vs: seq<View>, flow: string): seq<View> {
    Opt(Find(vs, flow, Iverilog)) + Opt(Find(vs, flow, Verilator)) + Opt(Find(vs, flow, Xsim))
  }

  lemma OneView(vs: seq<View>, u: View, v: View)
    requires ViewsOk(vs) && u in vs && v in vs && u.flow == v.flow && u.runner == v.runner
    ensures u == v
  {
    hide TraceOk;
    var i :| 0 <= i < |vs| && vs[i] == u;
    var j :| 0 <= j < |vs| && vs[j] == v;
    assert i < j || j < i || i == j;
  }

  lemma FindIs(vs: seq<View>, v: View)
    requires ViewsOk(vs) && v in vs && HasTrace(v)
    ensures Find(vs, v.flow, v.runner) == Some(v)
  {
    hide HasTrace, ViewsOk;
    var f := Find(vs, v.flow, v.runner);
    OneView(vs, f.value, v);
  }

  lemma GroupIs(vs: seq<View>, flow: string)
    requires ViewsOk(vs)
    ensures forall v :: v in Group(vs, flow) <==> v in vs && v.flow == flow && Simulator(v.runner) && HasTrace(v)
    ensures AllTraced(Group(vs, flow))
    ensures forall i, j :: 0 <= i < j < |Group(vs, flow)| ==> Before(Group(vs, flow)[i].runner, Group(vs, flow)[j].runner)
  {
    hide TraceOk, HasTrace, Find;
    forall v | v in vs && v.flow == flow && Simulator(v.runner) && HasTrace(v)
      ensures v in Group(vs, flow)
    {
      FindIs(vs, v);
      assert v in Opt(Find(vs, flow, v.runner));
    }
  }

  ghost predicate GroupTold(group: seq<View>, reject: set<string>, points: seq<Point>) {
    forall i, j | 0 <= i < j < |group| && group[i].trace.Some? && group[j].trace.Some? ::
      PairTold(group[i], group[j], Observes2(group[i].runner), Observes2(group[j].runner), reject, points)
  }

  ghost predicate GroupAgrees(group: seq<View>, reject: set<string>) {
    forall i, j | 0 <= i < j < |group| && group[i].trace.Some? && group[j].trace.Some? ::
      Together(group[i], group[j], reject, Observes2(group[i].runner), Observes2(group[j].runner))
  }

  /** Two simulators. */
  function Among(a: View, b: View): Comparison { Comparison(a, b, false, Observes2(a.runner), Observes2(b.runner)) }

  /** The comparisons of a view of a group with the later ones before `n`. */
  ghost function Later(group: seq<View>, i: nat, n: nat): set<Comparison>
    requires i < |group| && n <= |group|
  {
    set j | i < j < n :: Among(group[i], group[j])
  }

  /** Those of the first `n` views. */
  ghost function AmongFirst(group: seq<View>, n: nat): set<Comparison>
    requires n <= |group|
  {
    set i, j | 0 <= i < n && i < j < |group| :: Among(group[i], group[j])
  }

  /** The pairs of a view with the later ones of its group. */
  method CompareWith(group: seq<View>, i: nat, reject: set<string>, before: seq<Point>) returns (points: seq<Point>, pairs: seq<Pair>)
    requires i < |group| && AllTraced(group)
    ensures Lists(pairs, Later(group, i, |group|))
    ensures before <= points
    ensures forall j | i < j < |group| && group[i].trace.Some? && group[j].trace.Some? ::
              PairTold(group[i], group[j], Observes2(group[i].runner), Observes2(group[j].runner), reject, points)
    ensures GroupAgrees(group, reject) ==> points == before
  {
    hide PairTold, Together, TraceOk, Lists;
    points, pairs := before, [];
    assert group[i] in group;
    ListsNone(Later(group, i, i + 1));
    for j := i + 1 to |group|
      invariant before <= points
      invariant Lists(pairs, Later(group, i, j))
      invariant forall k | i < k < j && group[i].trace.Some? && group[k].trace.Some? ::
                  PairTold(group[i], group[k], Observes2(group[i].runner), Observes2(group[k].runner), reject, points)
      invariant GroupAgrees(group, reject) ==> points == before
    {
      assert group[j] in group;
      var more, pair := ComparePair(group[i], group[j], Observes2(group[i].runner), Observes2(group[j].runner), reject);
      ListsJoin(pairs, Later(group, i, j), pair, {Among(group[i], group[j])});
      assert Later(group, i, j + 1) == Later(group, i, j) + {Among(group[i], group[j])};
      ghost var was := points;
      points, pairs := points + more, pairs + pair;
      forall k | i < k < j && group[i].trace.Some? && group[k].trace.Some?
        ensures PairTold(group[i], group[k], Observes2(group[i].runner), Observes2(group[k].runner), reject, points)
      {
        ToldMore(group[i], group[k], Observes2(group[i].runner), Observes2(group[k].runner), reject, was, points);
      }
      ToldMore(group[i], group[j], Observes2(group[i].runner), Observes2(group[j].runner), reject, more, points);
    }
  }

  /** The points among the simulators of one flow. */
  method CompareGroup(group: seq<View>, reject: set<string>) returns (points: seq<Point>, pairs: seq<Pair>)
    requires AllTraced(group)
    ensures Lists(pairs, AmongFirst(group, |group|))
    ensures GroupTold(group, reject, points)
    ensures GroupAgrees(group, reject) ==> points == []
  {
    hide PairTold, Together, TraceOk, GroupAgrees, Lists;
    points, pairs := [], [];
    ListsNone(AmongFirst(group, 0));
    for i := 0 to |group|
      invariant Lists(pairs, AmongFirst(group, i))
      invariant forall a, b | 0 <= a < i && a < b < |group| && group[a].trace.Some? && group[b].trace.Some? ::
                  PairTold(group[a], group[b], Observes2(group[a].runner), Observes2(group[b].runner), reject, points)
      invariant GroupAgrees(group, reject) ==> points == []
    {
      ghost var was := points;
      var more;
      points, more := CompareWith(group, i, reject, points);
      ListsJoin(pairs, AmongFirst(group, i), more, Later(group, i, |group|));
      assert AmongFirst(group, i + 1) == AmongFirst(group, i) + Later(group, i, |group|);
      pairs := pairs + more;
      assert forall p | p in was :: p in points;
      forall a, b | 0 <= a < i && a < b < |group| && group[a].trace.Some? && group[b].trace.Some?
        ensures PairTold(group[a], group[b], Observes2(group[a].runner), Observes2(group[b].runner), reject, points)
      {
        ToldMore(group[a], group[b], Observes2(group[a].runner), Observes2(group[b].runner), reject, was, points);
      }
    }
  }
}
