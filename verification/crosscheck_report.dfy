/** The findings of a test, their marking as known and the verdict (crosscheck.py). */
module CrosscheckReport {
  import opened Wrap
  import opened Traces
  import opened Crosscheck
  import opened CrosscheckGolden

  // ---- what is compared ------------------------------------------------------------------------------

  /** The rules by which two results are compared: the simulators of a flow, the golden model with those of
      rtl, iverilog with its transformed source, a flow with rtl, the golden model with hardware. */
  predicate Ruled(u: View, v: View) {
    HasTrace(u) && HasTrace(v) && (FlowRuled(u, v) || ViewRuled(u, v))
  }

  predicate FlowRuled(u: View, v: View) {
    (u.flow == v.flow && Before(u.runner, v.runner)) || (Golden(u) && v.flow == "rtl" && Simulator(v.runner))
  }

  predicate ViewRuled(u: View, v: View) {
    || (u.flow == v.flow && u.runner == Iverilog && v.runner == IverilogVz)
    || (u.flow == "rtl" && v.flow != "rtl" && u.runner == v.runner && Simulator(v.runner))
    || (Golden(u) && v.runner == Hw && !v.selftestFails)
  }

  /** How they are compared. */
  function Rule(u: View, v: View): Comparison { Comparison(u, v, u.runner == Python, Observes2(u.runner), Observes2(v.runner)) }

  /** Every comparison of a model source. */
  ghost function Comparisons(vs: seq<View>): set<Comparison> { set u, v | u in vs && v in vs && Ruled(u, v) :: Rule(u, v) }

  /** Those of the simulators of a flow. */
  ghost function FlowComparisons(vs: seq<View>, flow: string): set<Comparison> {
    var group, e := Group(vs, flow), Find(vs, "rtl", Python);
    AmongFirst(group, |group|) + if flow == "rtl" && e.Some? then AgainstAll(e.value, group) else {}
  }

  ghost function Single(u: Option<View>, v: View): set<Comparison> { if u.Some? then {Rule(u.value, v)} else {} }

  /** Those of the rules of one view. */
  ghost function ViewComparisons(vs: seq<View>, v: View): set<Comparison> {
    if !HasTrace(v) then {}
    else if v.runner == IverilogVz then Single(Find(vs, v.flow, Iverilog), v)
    else if v.flow != "rtl" && Simulator(v.runner) then Single(Find(vs, "rtl", v.runner), v)
    else if v.runner == Hw && !v.selftestFails then Single(Find(vs, "rtl", Python), v)
    else {}
  }

  ghost function FlowsCompared(vs: seq<View>, flows: set<string>): set<Comparison> {
    set f, c | f in flows && c in FlowComparisons(vs, f) :: c
  }

  ghost function ViewsCompared(vs: seq<View>, some: seq<View>): set<Comparison> {
    set v, c | v in some && c in ViewComparisons(vs, v) :: c
  }

  lemma FlowMember(vs: seq<View>, flow: string, c: Comparison)
    requires ViewsOk(vs)
    ensures c in FlowComparisons(vs, flow) <==>
            c.a in vs && c.b in vs && c == Rule(c.a, c.b) && Ruled(c.a, c.b) && FlowRuled(c.a, c.b) && c.b.flow == flow
  {
    GroupIs(vs, flow);
    GoldenOnly(vs);
    var group := Group(vs, flow);
    hide ViewsOk, Group, Find, HasTrace, AllTraced, AmongFirst;
    AmongMember(group, c);
  }

  lemma AmongMember(group: seq<View>, c: Comparison)
    requires forall i, j :: 0 <= i < j < |group| ==> Before(group[i].runner, group[j].runner)
    ensures c in AmongFirst(group, |group|) <==>
            c.a in group && c.b in group && Before(c.a.runner, c.b.runner) && c == Among(c.a, c.b)
  {
    if c.a in group && c.b in group && Before(c.a.runner, c.b.runner) && c == Among(c.a, c.b) {
      var i :| 0 <= i < |group| && group[i] == c.a;
      var j :| 0 <= j < |group| && group[j] == c.b;
      assert i < j;
      assert c in AmongFirst(group, |group|);
    }
    if c in AmongFirst(group, |group|) {
      var i, j :| 0 <= i < |group| && i < j < |group| && c == Among(group[i], group[j]);
      assert group[i] in group && group[j] in group;
    }
  }

  lemma ViewMember(vs: seq<View>, v: View, c: Comparison)
    requires ViewsOk(vs) && v in vs
    ensures c in ViewComparisons(vs, v) <==>
            c.a in vs && c.b == v && c == Rule(c.a, c.b) && Ruled(c.a, c.b) && ViewRuled(c.a, c.b)
  {
    GoldenOnly(vs);
    FindOnly(vs, v.flow, Iverilog);
    FindOnly(vs, "rtl", v.runner);
    hide ViewsOk, Find, HasTrace;
  }

  /** The flows and the views together make every comparison. */
  lemma AllCompared(vs: seq<View>)
    requires ViewsOk(vs)
    ensures FlowsCompared(vs, Flows(vs)) + ViewsCompared(vs, vs) == Comparisons(vs)
  {
    forall c
      ensures c in FlowsCompared(vs, Flows(vs)) || c in ViewsCompared(vs, vs) <==> c in Comparisons(vs)
    {
      OneCompared(vs, c);
    }
  }

  lemma OneCompared(vs: seq<View>, c: Comparison)
    requires ViewsOk(vs)
    ensures c in FlowsCompared(vs, Flows(vs)) || c in ViewsCompared(vs, vs) <==> c in Comparisons(vs)
  {
    forall f
      ensures c in FlowComparisons(vs, f) <==>
              c.a in vs && c.b in vs && c == Rule(c.a, c.b) && Ruled(c.a, c.b) && FlowRuled(c.a, c.b) && c.b.flow == f
    {
      FlowMember(vs, f, c);
    }
    forall v | v in vs
      ensures c in ViewComparisons(vs, v) <==> c.a in vs && c.b == v && c == Rule(c.a, c.b) && Ruled(c.a, c.b) && ViewRuled(c.a, c.b)
    {
      ViewMember(vs, v, c);
    }
    hide FlowComparisons, ViewComparisons, ViewsOk, ViewRuled, HasTrace;
    if c in Comparisons(vs) && FlowRuled(c.a, c.b) {
      assert c.b.flow in Flows(vs);
      assert c in FlowComparisons(vs, c.b.flow);
    }
    if c in Comparisons(vs) && ViewRuled(c.a, c.b) {
      assert c in ViewComparisons(vs, c.b);
    }
  }

  // ---- classify --------------------------------------------------------------------------------------

  /** The flows of the simulators with a trace. */
  function Flows(vs: seq<View>): set<string> { set v | v in vs && Simulator(v.runner) && HasTrace(v) :: v.flow }

  function Sources(vs: seq<View>): Option<string> { if vs == [] then None else vs[0].source }

  function RunnersOf(vs: seq<View>): set<Runner> { set v | v in vs :: v.runner }

  /** The golden model against the simulators of rtl. */
  method ClassifyGolden(vs: seq<View>, flow: string, group: seq<View>, reject: set<string>, points: seq<Point>)
    returns (t: Told, pairs: seq<Pair>)
    requires ViewsOk(vs) && AllTraced(group)
    ensures Lists(pairs, if flow == "rtl" && Find(vs, "rtl", Python).Some? then AgainstAll(Find(vs, "rtl", Python).value, group) else {})
    ensures GoldenPart(vs, flow, group, reject, points, t)
    ensures t == NOTHING || (flow == "rtl" && Find(vs, "rtl", Python).Some?
                             && !forall v | v in group && v.trace.Some? :: AsPredicted(Find(vs, "rtl", Python).value, v, reject))
  {
    hide ViewsOk, TraceOk, Group, Find, GoldenTold, AsPredicted, HasTrace, Lists;
    t, pairs := NOTHING, [];
    ListsNone({});
    var e := Find(vs, "rtl", Python);
    if flow == "rtl" && e.Some? {
      TracedIn(vs, e.value);
      t, pairs := GoldenVsSims(e.value, group, reject, points);
    }
  }

  ghost predicate GoldenPart(vs: seq<View>, flow: string, group: seq<View>, reject: set<string>, points: seq<Point>, t: Told)
    requires AllTraced(group)
  {
    if flow == "rtl" && Find(vs, "rtl", Python).Some?
    then Traced(Find(vs, "rtl", Python).value) && GoldenTold(Find(vs, "rtl", Python).value, group, reject, points, t)
    else t == NOTHING
  }

  /** The simulators of a flow among themselves, and the golden model against those of rtl. */
  method ClassifyFlow(vs: seq<View>, flow: string, reject: set<string>)
    returns (out: seq<Finding>, issues: seq<Issue>, pairs: seq<Pair>)
    requires ViewsOk(vs) && reject == RejectCfgs(vs)
    ensures FlowDone(vs, flow, reject, out, issues)
    ensures Lists(pairs, FlowComparisons(vs, flow))
    ensures FlowConsistent(vs, flow, reject) ==> out == [] && issues == []
  {
    GroupIs(vs, flow);
    hide ViewsOk, TraceOk, Group, Find, GroupTold, GroupAgrees, GoldenTold, AsPredicted, RejectCfgs, HasTrace, AllTraced, Lists;
    var group := Group(vs, flow);
    var source := Sources(group);
    var points;
    points, pairs := CompareGroup(group, reject);
    var t, more := ClassifyGolden(vs, flow, group, reject, points);
    ListsJoin(pairs, AmongFirst(group, |group|), more,
              if flow == "rtl" && Find(vs, "rtl", Python).Some? then AgainstAll(Find(vs, "rtl", Python).value, group) else {});
    pairs := pairs + more;
    out, issues := [], t.issues;
    var told := points + t.only;
    if told != [] { out := out + [Found(SimDivergence, flow, source, RunnersOf(group), told)]; }
    if t.doc != [] { out := out + [Found(DocVsModel, "rtl", source, t.docBy, t.doc)]; }
    if t.gap != [] { out := out + [Found(DocGap, "rtl", source, t.gapBy, t.gap)]; }
    FlowIsDone(vs, flow, reject, points, t, out, issues);
  }

  lemma TracedIn(vs: seq<View>, v: View)
    requires ViewsOk(vs) && v in vs && v.trace.Some?
    ensures Traced(v)
  {}

  ghost predicate FlowConsistent(vs: seq<View>, flow: string, reject: set<string>) {
    && GroupAgrees(Group(vs, flow), reject)
    && (flow == "rtl" ==> forall e, v | e in vs && v in Group(vs, flow) && Golden(e) && v.trace.Some? :: AsPredicted(e, v, reject))
  }

  /** Every disagreement of the flow is in a finding of the flow, whose points or kept points and count
      are all that were told, or an issue. */
  ghost predicate FlowDone(vs: seq<View>, flow: string, reject: set<string>, out: seq<Finding>, issues: seq<Issue>)
    requires ViewsOk(vs)
  {
    GroupIs(vs, flow);
    exists points, t :: AllTold(vs, flow, reject, points, t) && Reported(vs, flow, points, t, out, issues)
  }

  ghost predicate AllTold(vs: seq<View>, flow: string, reject: set<string>, points: seq<Point>, t: Told)
    requires ViewsOk(vs)
  {
    GroupIs(vs, flow);
    GroupTold(Group(vs, flow), reject, points) && GoldenPart(vs, flow, Group(vs, flow), reject, points, t)
  }

  predicate Reported(vs: seq<View>, flow: string, points: seq<Point>, t: Told, out: seq<Finding>, issues: seq<Issue>) {
    var group := Group(vs, flow);
    && (points + t.only != [] ==> Found(SimDivergence, flow, Sources(group), RunnersOf(group), points + t.only) in out)
    && (t.doc != [] ==> Found(DocVsModel, "rtl", Sources(group), t.docBy, t.doc) in out)
    && (t.gap != [] ==> Found(DocGap, "rtl", Sources(group), t.gapBy, t.gap) in out)
    && issues == t.issues
  }

  lemma FlowIsDone(vs: seq<View>, flow: string, reject: set<string>, points: seq<Point>, t: Told, out: seq<Finding>, issues: seq<Issue>)
    requires ViewsOk(vs) && AllTold(vs, flow, reject, points, t) && Reported(vs, flow, points, t, out, issues)
    ensures FlowDone(vs, flow, reject, out, issues)
  {}

  /** Nothing reported of a flow: all of it agrees. */
  lemma FlowQuiet(vs: seq<View>, flow: string, reject: set<string>)
    requires ViewsOk(vs) && FlowDone(vs, flow, reject, [], [])
    ensures FlowConsistent(vs, flow, reject)
  {
    GroupIs(vs, flow);
    var points, t :| AllTold(vs, flow, reject, points, t) && Reported(vs, flow, points, t, [], []);
    assert points == [] && t.only == [] && t.doc == [] && t.gap == [] && t.issues == [] by {
      assert points + t.only == [];
    }
    hide ViewsOk, TraceOk, Group, Find, AsPredicted, HasTrace, Reported;
    QuietGroup(Group(vs, flow), reject);
    if flow == "rtl" {
      forall e, v | e in vs && v in Group(vs, flow) && Golden(e) && v.trace.Some?
        ensures AsPredicted(e, v, reject)
      {
        GoldenFound(vs, e);
        QuietGolden(e, Group(vs, flow), reject, t);
      }
    }
  }

  lemma GoldenFound(vs: seq<View>, e: View)
    requires ViewsOk(vs) && e in vs && Golden(e)
    ensures Find(vs, "rtl", Python) == Some(e)
  {
    FindIs(vs, e);
  }

  lemma QuietGroup(group: seq<View>, reject: set<string>)
    requires AllTraced(group) && GroupTold(group, reject, [])
    ensures GroupAgrees(group, reject)
  {
    hide TraceOk, PairTold, Together;
    forall i, j | 0 <= i < j < |group| && group[i].trace.Some? && group[j].trace.Some?
      ensures Together(group[i], group[j], reject, Observes2(group[i].runner), Observes2(group[j].runner))
    {
      assert group[i] in group && group[j] in group;
      ToldAgree(group[i], group[j], Observes2(group[i].runner), Observes2(group[j].runner), reject);
    }
  }

  lemma QuietGolden(e: View, group: seq<View>, reject: set<string>, t: Told)
    requires Traced(e) && AllTraced(group) && GoldenTold(e, group, reject, [], t)
    requires t.only == [] && t.doc == [] && t.gap == [] && t.issues == []
    ensures forall v | v in group :: AsPredicted(e, v, reject)
  {
    hide TraceOk, Misses, Rejects, TellsSpot, TellsRejection, InOrder, OrderMismatched, AsPredicted;
    forall x: Entry
      ensures Accounted(x, [], t) <==> Accounted(x, [], NOTHING)
    {}
    forall v, c
      ensures RejectionTold(v, c, [], t) <==> RejectionTold(v, c, [], NOTHING)
    {}
    hide Accounted, RejectionTold;
    assert GoldenTold(e, group, reject, [], NOTHING);
    NothingTold(e, group, reject);
  }

  // ---- the other comparisons -------------------------------------------------------------------------

  /** What one view is compared with besides the simulators of its flow, and its flags. */
  ghost predicate ViewConsistent(vs: seq<View>, v: View, reject: set<string>) {
    && (v.runner == Verilator ==> !v.xDependence)
    && (v.runner == IverilogVz && HasTrace(v) ==>
          forall u | u in vs && u.flow == v.flow && u.runner == Iverilog && HasTrace(u) :: Together(u, v, reject, true, true))
    && (v.flow != "rtl" && Simulator(v.runner) && HasTrace(v) ==>
          forall u | u in vs && u.flow == "rtl" && u.runner == v.runner && HasTrace(u) ::
            Together(u, v, reject, Observes2(v.runner), Observes2(v.runner)))
    && (v.runner == Hw ==> !v.selftestFails && !v.repeatsDiffer)
    && (v.runner == Hw && HasTrace(v) ==> forall e | e in vs && Golden(e) :: Conforms(Part(e, v), Part(v, e), false))
  }

  /** Two results of a pair rule: every disagreement is among the points of a finding. */
  ghost predicate PairDone(a: View, b: View, ax: bool, bx: bool, reject: set<string>, cls: FindingClass, runners: set<Runner>, out: seq<Finding>)
    requires a.trace.Some? && b.trace.Some?
  {
    exists points :: PairTold(a, b, ax, bx, reject, points)
                     && (points != [] ==> Found(cls, b.flow, b.source, runners, points) in out)
  }

  /** The pair rule, when the other view has a trace. */
  method ClassifyPair(other: Option<View>, v: View, x: bool, reject: set<string>, cls: FindingClass, runners: set<Runner>)
    returns (out: seq<Finding>, pairs: seq<Pair>)
    requires Traced(v) && (other.Some? ==> Traced(other.value))
    ensures Lists(pairs, if other.Some? then {Comparison(other.value, v, false, x, x)} else {})
    ensures other.Some? ==> PairDone(other.value, v, x, x, reject, cls, runners, out)
    ensures (other.Some? ==> Together(other.value, v, reject, x, x)) <==> out == []
  {
    hide PairTold, Together, TraceOk, Lists;
    out, pairs := [], [];
    ListsNone({});
    if other.Some? {
      var points;
      points, pairs := ComparePair(other.value, v, x, x, reject);
      if points != [] { out := [Found(cls, v.flow, v.source, runners, points)]; }
      assert points != [] ==> Found(cls, v.flow, v.source, runners, points) in out;
      if points == [] { ToldAgree(other.value, v, x, x, reject); }
    }
  }

  method ClassifyHw(vs: seq<View>, v: View) returns (out: seq<Finding>, pairs: seq<Pair>)
    requires ViewsOk(vs) && v in vs && v.runner == Hw
    ensures Lists(pairs, ViewComparisons(vs, v))
    ensures out == [] <==> !v.selftestFails && !v.repeatsDiffer
                           && (HasTrace(v) ==> forall e | e in vs && Golden(e) :: Conforms(Part(e, v), Part(v, e), false))
    ensures !v.selftestFails && HasTrace(v) ==>
              forall e | e in vs && Golden(e) :: exists ms :: Complete(ms, Part(e, v), Part(v, e), false) && SiliconFound(v, ms, out)
  {
    hide ViewsOk, TraceOk, Conforms, Complete, Find, Part, Lists;
    out, pairs := [], [];
    ListsNone({});
    if v.selftestFails { return [Found(HarnessError, v.flow, None, {Hw}, [Flag])], []; }
    if v.repeatsDiffer { out := out + [Found(Nondeterminism, v.flow, None, {Hw}, [Flag])]; }
    var e := Find(vs, "rtl", Python);
    GoldenOnly(vs);
    if e.Some? && HasTrace(v) {
      TracedIn(vs, e.value);
      TracedIn(vs, v);
      RestrictOk(e.value.trace.value, Shared(e.value, v));
      RestrictOk(v.trace.value, Shared(v, e.value));
      assert TraceOk(Part(e.value, v)) && TraceOk(Part(v, e.value)) by { PartIs(e.value, v); PartIs(v, e.value); }
      pairs := ListPair(e.value, v, true, true, false);
      var ms := Compare(Part(e.value, v), Part(v, e.value), false);
      CompareExact(ms, Part(e.value, v), Part(v, e.value), false);
      var points := seq(|ms|, i requires 0 <= i < |ms| => Missed(ms[i]));
      if points != [] { out := out + [Found(SiliconMismatch, v.flow, None, {Hw}, points)]; }
      assert SiliconFound(v, ms, out);
    }
  }

  predicate SiliconFound(v: View, ms: seq<Mismatch>, out: seq<Finding>) {
    ms != [] ==> Found(SiliconMismatch, v.flow, None, {Hw}, seq(|ms|, i requires 0 <= i < |ms| => Missed(ms[i]))) in out
  }

  lemma PartIs(a: View, b: View)
    requires a.trace.Some? && TraceOk(Restrict(a.trace.value, Shared(a, b)))
    ensures TraceOk(Part(a, b))
  {}

  lemma GoldenOnly(vs: seq<View>)
    requires ViewsOk(vs)
    ensures var f := Find(vs, "rtl", Python);
            (f.Some? ==> Golden(f.value)) && forall e | e in vs && Golden(e) :: f == Some(e)
  {
    hide ViewsOk, Find;
    forall e | e in vs && Golden(e)
      ensures Find(vs, "rtl", Python) == Some(e)
    {
      FindIs(vs, e);
    }
  }

  lemma FindOnly(vs: seq<View>, flow: string, r: Runner)
    requires ViewsOk(vs)
    ensures var f := Find(vs, flow, r);
            forall u | u in vs && u.flow == flow && u.runner == r && HasTrace(u) :: f == Some(u)
  {
    hide ViewsOk, Find, HasTrace;
    forall u | u in vs && u.flow == flow && u.runner == r && HasTrace(u)
      ensures Find(vs, flow, r) == Some(u)
    {
      FindIs(vs, u);
    }
  }

  /** The disagreements of the rules of one view are in findings. */
  ghost predicate ViewDone(vs: seq<View>, v: View, reject: set<string>, out: seq<Finding>) {
    && (v.runner == IverilogVz && HasTrace(v) ==>
          forall u | u in vs && u.flow == v.flow && u.runner == Iverilog && HasTrace(u) ::
            PairDone(u, v, true, true, reject, TransformBug, {Iverilog, IverilogVz}, out))
    && (v.flow != "rtl" && Simulator(v.runner) && HasTrace(v) ==>
          forall u | u in vs && u.flow == "rtl" && u.runner == v.runner && HasTrace(u) ::
            PairDone(u, v, Observes2(v.runner), Observes2(v.runner), reject, FlowMismatch, {v.runner}, out))
    && (v.runner == Hw && !v.selftestFails && HasTrace(v) ==>
          forall e | e in vs && Golden(e) :: exists ms :: Complete(ms, Part(e, v), Part(v, e), false) && SiliconFound(v, ms, out))
  }

  /** The body of the loop over the views. */
  method ClassifyView(vs: seq<View>, v: View, reject: set<string>) returns (out: seq<Finding>, pairs: seq<Pair>)
    requires ViewsOk(vs) && v in vs
    ensures Lists(pairs, ViewComparisons(vs, v))
    ensures ViewDone(vs, v, reject, out)
    ensures out == [] <==> ViewConsistent(vs, v, reject)
  {
    hide ViewsOk, TraceOk, Conforms, Complete, Find, Part, Together, PairDone, Lists;
    FindOnly(vs, v.flow, Iverilog);
    FindOnly(vs, "rtl", v.runner);
    out, pairs := [], [];
    ListsNone({});
    if HasTrace(v) { TracedIn(vs, v); }
    if v.runner == Verilator && v.xDependence { out := [Found(XDependence, v.flow, v.source, {Verilator}, [Flag])]; }
    if v.runner == IverilogVz && HasTrace(v) {
      var iv := Find(vs, v.flow, Iverilog);
      if iv.Some? { TracedIn(vs, iv.value); }
      out, pairs := ClassifyPair(iv, v, true, reject, TransformBug, {Iverilog, IverilogVz});
    }
    if v.flow != "rtl" && Simulator(v.runner) && HasTrace(v) {
      var other := Find(vs, "rtl", v.runner);
      if other.Some? { TracedIn(vs, other.value); }
      var more;
      more, pairs := ClassifyPair(other, v, Observes2(v.runner), reject, FlowMismatch, {v.runner});
      ghost var was := out;
      out := out + more;
      if other.Some? { DoneMore(other.value, v, Observes2(v.runner), reject, FlowMismatch, {v.runner}, more, out); }
    }
    if v.runner == Hw { out, pairs := ClassifyHw(vs, v); }
  }

  lemma DoneMore(a: View, b: View, x: bool, reject: set<string>, cls: FindingClass, runners: set<Runner>, out: seq<Finding>, more: seq<Finding>)
    requires a.trace.Some? && b.trace.Some? && PairDone(a, b, x, x, reject, cls, runners, out) && forall f | f in out :: f in more
    ensures PairDone(a, b, x, x, reject, cls, runners, more)
  {
    hide PairTold;
    var points :| PairTold(a, b, x, x, reject, points) && (points != [] ==> Found(cls, b.flow, b.source, runners, points) in out);
    assert points != [] ==> Found(cls, b.flow, b.source, runners, points) in more;
  }

  // ---- all of it -------------------------------------------------------------------------------------

  lemma ConsistentParts(vs: seq<View>)
    requires ViewsOk(vs)
    ensures Consistent(vs) <==>
            (forall flow | flow in Flows(vs) :: FlowConsistent(vs, flow, RejectCfgs(vs)))
            && (forall v | v in vs :: ViewConsistent(vs, v, RejectCfgs(vs)))
  {
    var reject := RejectCfgs(vs);
    if Consistent(vs) {
      forall flow | flow in Flows(vs)
        ensures FlowConsistent(vs, flow, reject)
      {
        FlowPart(vs, flow);
      }
    }
    if (forall flow | flow in Flows(vs) :: FlowConsistent(vs, flow, reject)) && forall v | v in vs :: ViewConsistent(vs, v, reject) {
      FlowsWhole(vs);
    }
  }

  lemma FlowPart(vs: seq<View>, flow: string)
    requires ViewsOk(vs) && Consistent(vs)
    ensures FlowConsistent(vs, flow, RejectCfgs(vs))
  {
    GroupIs(vs, flow);
    var group := Group(vs, flow);
    assert forall i :: 0 <= i < |group| ==> group[i] in group;
    hide ViewsOk, TraceOk, Group, Together, AsPredicted, RejectCfgs, HasTrace, Conforms, AllTraced;
    assert GroupAgrees(group, RejectCfgs(vs));
  }

  lemma FlowsWhole(vs: seq<View>)
    requires ViewsOk(vs)
    requires forall flow | flow in Flows(vs) :: FlowConsistent(vs, flow, RejectCfgs(vs))
    requires forall v | v in vs :: ViewConsistent(vs, v, RejectCfgs(vs))
    ensures Consistent(vs)
  {
    var reject := RejectCfgs(vs);
    hide TraceOk, Together, AsPredicted, RejectCfgs, Conforms;
    forall u, v | u in vs && v in vs && HasTrace(u) && HasTrace(v) && u.flow == v.flow && Before(u.runner, v.runner)
      ensures Together(u, v, reject, Observes2(u.runner), Observes2(v.runner))
    {
      assert u.flow in Flows(vs);
      SimPair(vs, u, v);
    }
    forall e, v | e in vs && v in vs && Golden(e) && v.flow == "rtl" && Simulator(v.runner) && HasTrace(v)
      ensures AsPredicted(e, v, reject)
    {
      assert "rtl" in Flows(vs);
      GroupIs(vs, "rtl");
      assert v in Group(vs, "rtl");
    }
  }

  lemma SimPair(vs: seq<View>, u: View, v: View)
    requires ViewsOk(vs) && FlowConsistent(vs, u.flow, RejectCfgs(vs))
    requires u in vs && v in vs && HasTrace(u) && HasTrace(v) && u.flow == v.flow && Before(u.runner, v.runner)
    ensures Together(u, v, RejectCfgs(vs), Observes2(u.runner), Observes2(v.runner))
  {
    GroupIs(vs, u.flow);
    var group := Group(vs, u.flow);
    hide ViewsOk, TraceOk, Group, Together, RejectCfgs, AllTraced;
    var i :| 0 <= i < |group| && group[i] == u;
    var j :| 0 <= j < |group| && group[j] == v;
    var p, q := if i < j then i else j, if i < j then j else i;
    assert p < q ==> Before(group[p].runner, group[q].runner);
  }

  lemma FlowMore(vs: seq<View>, flow: string, reject: set<string>, out: seq<Finding>, more: seq<Finding>, issues: seq<Issue>)
    requires ViewsOk(vs) && FlowDone(vs, flow, reject, out, issues) && forall f | f in out :: f in more
    ensures FlowDone(vs, flow, reject, more, issues)
  {
    var points, t :| AllTold(vs, flow, reject, points, t) && Reported(vs, flow, points, t, out, issues);
    hide AllTold;
    assert Reported(vs, flow, points, t, more, issues);
  }

  lemma ViewMore(vs: seq<View>, v: View, reject: set<string>, out: seq<Finding>, more: seq<Finding>)
    requires ViewsOk(vs) && v in vs && ViewDone(vs, v, reject, out) && forall f | f in out :: f in more
    ensures ViewDone(vs, v, reject, more)
  {
    hide PairDone, Complete, Part, ViewsOk;
    if v.runner == IverilogVz && HasTrace(v) {
      forall u | u in vs && u.flow == v.flow && u.runner == Iverilog && HasTrace(u)
        ensures PairDone(u, v, true, true, reject, TransformBug, {Iverilog, IverilogVz}, more)
      {
        DoneMore(u, v, true, reject, TransformBug, {Iverilog, IverilogVz}, out, more);
      }
    }
    if v.flow != "rtl" && Simulator(v.runner) && HasTrace(v) {
      forall u | u in vs && u.flow == "rtl" && u.runner == v.runner && HasTrace(u)
        ensures PairDone(u, v, Observes2(v.runner), Observes2(v.runner), reject, FlowMismatch, {v.runner}, more)
      {
        DoneMore(u, v, Observes2(v.runner), reject, FlowMismatch, {v.runner}, out, more);
      }
    }
    if v.runner == Hw && !v.selftestFails && HasTrace(v) {
      forall e | e in vs && Golden(e)
        ensures exists ms :: Complete(ms, Part(e, v), Part(v, e), false) && SiliconFound(v, ms, more)
      {
        var ms :| Complete(ms, Part(e, v), Part(v, e), false) && SiliconFound(v, ms, out);
        assert SiliconFound(v, ms, more);
      }
    }
  }

  /** All the disagreements of the simulators of a flow are in findings and issues. */
  ghost predicate FlowKept(vs: seq<View>, flow: string, out: seq<Finding>, issues: seq<Issue>)
    requires ViewsOk(vs)
  {
    exists some :: FlowDone(vs, flow, RejectCfgs(vs), out, some) && forall i | i in some :: i in issues
  }

  /** No disagreement is dropped: of every flow and every rule, each is in a finding or an issue. */
  ghost predicate NothingDropped(vs: seq<View>, out: seq<Finding>, issues: seq<Issue>)
    requires ViewsOk(vs)
  {
    && (forall flow | flow in Flows(vs) :: FlowKept(vs, flow, out, issues))
    && (forall v | v in vs :: ViewDone(vs, v, RejectCfgs(vs), out))
  }

  method ClassifyFlows(vs: seq<View>) returns (out: seq<Finding>, issues: seq<Issue>, pairs: seq<Pair>)
    requires ViewsOk(vs)
    ensures Lists(pairs, FlowsCompared(vs, Flows(vs)))
    ensures forall flow | flow in Flows(vs) :: FlowKept(vs, flow, out, issues)
    ensures (forall flow | flow in Flows(vs) :: FlowConsistent(vs, flow, RejectCfgs(vs))) <==> out == [] && issues == []
  {
    hide ViewsOk, Flows, RejectCfgs, FlowDone, FlowConsistent, Lists, FlowComparisons;
    var left := Flows(vs);
    ghost var done: set<string> := {};
    out, issues, pairs := [], [], [];
    ListsNone(FlowsCompared(vs, done));
    while left != {}
      invariant Lists(pairs, FlowsCompared(vs, done))
      invariant left + done == Flows(vs)
      invariant forall flow | flow in done :: FlowKept(vs, flow, out, issues)
      invariant (forall flow | flow in done :: FlowConsistent(vs, flow, RejectCfgs(vs))) <==> out == [] && issues == []
      decreases left
    {
      var flow :| flow in left;
      var more, some, pair := ClassifyFlow(vs, flow, RejectCfgs(vs));
      ghost var was, wasIssues := out, issues;
      ListsJoin(pairs, FlowsCompared(vs, done), pair, FlowComparisons(vs, flow));
      assert FlowsCompared(vs, done + {flow}) == FlowsCompared(vs, done) + FlowComparisons(vs, flow);
      out, issues, pairs := out + more, issues + some, pairs + pair;
      forall g | g in done + {flow}
        ensures FlowKept(vs, g, out, issues)
      {
        if g == flow {
          FlowMore(vs, flow, RejectCfgs(vs), more, out, some);
        } else {
          ghost var x :| FlowDone(vs, g, RejectCfgs(vs), was, x) && forall i | i in x :: i in wasIssues;
          FlowMore(vs, g, RejectCfgs(vs), was, out, x);
        }
      }
      if more == [] && some == [] { FlowQuiet(vs, flow, RejectCfgs(vs)); }
      left, done := left - {flow}, done + {flow};
    }
  }

  method ClassifyViews(vs: seq<View>, before: seq<Finding>) returns (out: seq<Finding>, pairs: seq<Pair>)
    requires ViewsOk(vs)
    ensures Lists(pairs, ViewsCompared(vs, vs))
    ensures before <= out
    ensures forall v | v in vs :: ViewDone(vs, v, RejectCfgs(vs), out)
    ensures out == before <==> forall v | v in vs :: ViewConsistent(vs, v, RejectCfgs(vs))
  {
    hide ViewsOk, RejectCfgs, ViewDone, ViewConsistent, Lists, ViewComparisons;
    out, pairs := before, [];
    ListsNone(ViewsCompared(vs, vs[..0]));
    for i := 0 to |vs|
      invariant Lists(pairs, ViewsCompared(vs, vs[..i]))
      invariant before <= out
      invariant forall v | v in vs[..i] :: ViewDone(vs, v, RejectCfgs(vs), out)
      invariant out == before <==> forall v | v in vs[..i] :: ViewConsistent(vs, v, RejectCfgs(vs))
    {
      var v := vs[i];
      assert v in vs && vs[..i + 1] == vs[..i] + [v];
      var more, pair := ClassifyView(vs, v, RejectCfgs(vs));
      ListsJoin(pairs, ViewsCompared(vs, vs[..i]), pair, ViewComparisons(vs, v));
      assert ViewsCompared(vs, vs[..i + 1]) == ViewsCompared(vs, vs[..i]) + ViewComparisons(vs, v);
      ghost var was := out;
      out, pairs := out + more, pairs + pair;
      forall u | u in vs[..i + 1]
        ensures ViewDone(vs, u, RejectCfgs(vs), out)
      {
        if u in vs[..i] { ViewMore(vs, u, RejectCfgs(vs), was, out); } else { ViewMore(vs, v, RejectCfgs(vs), more, out); }
      }
      assert |out| == |was| + |more|;
    }
    assert vs[..|vs|] == vs;
  }

  // ---- marking ---------------------------------------------------------------------------------------

  /** One `expected_divergence` entry; `id` is the finding file it names, `open` whether that exists with
      status open. */
  datatype Expected = Expected(cls: FindingClass, runners: set<Runner>, sources: Option<set<Option<string>>>, flows: Option<set<string>>,
                               id: string, open: bool)

  /** `covers`. */
  predicate Covers(e: Expected, f: Finding) {
    && e.cls == f.cls && f.runners <= e.runners
    && (e.sources.Some? ==> f.source in e.sources.value)
    && (e.flows.Some? ==> f.flow in e.flows.value)
  }

  /** The same evidence: marking changes at most the class, into known. */
  predicate SameEvidence(f: Finding, g: Finding) {
    && g.flow == f.flow && g.source == f.source && g.runners == f.runners && g.points == f.points && g.more == f.more
    && (g == f || (g.cls == KnownDivergence && g.knownOf == Some(f.cls)))
  }

  /** `_mark`; `want` is the id a finding of each class must be listed under. */
  method Mark(f: Finding, entries: seq<Expected>, want: FindingClass -> string) returns (g: Finding, issues: seq<Issue>)
    ensures SameEvidence(f, g)
    ensures g != f ==> g.id == Some(want(f.cls)) && exists e :: e in entries && Covers(e, f) && e.id == want(f.cls)
    ensures (exists e :: e in entries && Covers(e, f) && e.id == want(f.cls)) ==> g.cls == KnownDivergence && g.knownOf == Some(f.cls)
    ensures !(exists e :: e in entries && Covers(e, f) && e.id == want(f.cls)) ==>
              g == f && forall e | e in entries && Covers(e, f) :: WrongId(e.id) in issues
  {
    g, issues := f, [];
    for i := 0 to |entries|
      invariant g == f
      invariant forall k :: 0 <= k < i && Covers(entries[k], f) ==> entries[k].id != want(f.cls) && WrongId(entries[k].id) in issues
    {
      var e := entries[i];
      if Covers(e, f) {
        assert e in entries;
        if e.id == want(f.cls) {
          return f.(cls := KnownDivergence, knownOf := Some(f.cls), id := Some(e.id)), issues;
        }
        issues := issues + [WrongId(e.id)];
      }
    }
  }

  /** Every finding is still there, with its evidence. */
  ghost predicate AllKept(raw: seq<Finding>, out: seq<Finding>) {
    |out| == |raw| && forall k :: 0 <= k < |raw| ==> SameEvidence(raw[k], out[k])
  }

  /** `classify`. */
  method Classify(vs: seq<View>, entries: seq<Expected>, want: FindingClass -> string)
    returns (ghost raw: seq<Finding>, out: seq<Finding>, issues: seq<Issue>, pairs: seq<Pair>)
    requires ViewsOk(vs)
    ensures Lists(pairs, Comparisons(vs))
    ensures NothingDropped(vs, raw, issues) && AllKept(raw, out)
    ensures out == [] && issues == [] <==> Consistent(vs)
  {
    hide ViewsOk, FlowKept, ViewDone, FlowConsistent, ViewConsistent, SameEvidence, Flows, RejectCfgs,
      Lists, FlowsCompared, ViewsCompared, Comparisons;
    var first, some, ofFlows := ClassifyFlows(vs);
    var all, ofViews := ClassifyViews(vs, first);
    AllCompared(vs);
    ListsJoin(ofFlows, FlowsCompared(vs, Flows(vs)), ofViews, ViewsCompared(vs, vs));
    pairs := ofFlows + ofViews;
    ConsistentParts(vs);
    assert forall f | f in first :: f in all;
    raw, out, issues := all, [], some;
    for i := 0 to |all|
      invariant |out| == i && forall k :: 0 <= k < i ==> SameEvidence(all[k], out[k])
      invariant some <= issues && (i == 0 ==> issues == some)
    {
      var g, more := Mark(all[i], entries, want);
      out, issues := out + [g], issues + more;
    }
    forall flow | flow in Flows(vs)
      ensures FlowKept(vs, flow, all, issues)
    {
      KeptMore(vs, flow, first, all, some, issues);
    }
  }

  lemma KeptMore(vs: seq<View>, flow: string, out: seq<Finding>, more: seq<Finding>, issues: seq<Issue>, later: seq<Issue>)
    requires ViewsOk(vs) && FlowKept(vs, flow, out, issues) && (forall f | f in out :: f in more) && issues <= later
    ensures FlowKept(vs, flow, more, later)
  {
    hide ViewsOk, FlowDone;
    var x :| FlowDone(vs, flow, RejectCfgs(vs), out, x) && forall i | i in x :: i in issues;
    FlowMore(vs, flow, RejectCfgs(vs), out, more, x);
    assert forall i | i in issues :: i in later;
  }
}
