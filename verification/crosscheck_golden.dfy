/** The golden model against every simulator of the rtl flow (`_golden_vs_sims` of crosscheck.py): each
    disagreement is told once, as one of the simulators, of the documentation, or as an issue. */
module CrosscheckGolden {
  import opened Wrap
  import opened Traces
  import opened Crosscheck

  /** What a comparison of the golden trace must report. */
  ghost predicate Misses(e: View, v: View, m: Mismatch)
    requires e.trace.Some? && v.trace.Some?
  {
    PortMismatch(Part(e, v), Part(v, e), Observes2(v.runner), m) || SampleMismatch(Part(e, v), Part(v, e), m)
  }

  ghost predicate Fails(e: View, v: View, m: Mismatch)
    requires e.trace.Some? && v.trace.Some?
  {
    IsMismatch(Part(e, v), Part(v, e), Observes2(v.runner), m)
  }

  datatype Entry = Entry(v: View, m: Mismatch)

  datatype Spot = Spot(at: string, port: string, bit: int, kind: Kind)

  function SpotOf(m: Mismatch): Spot { Spot(m.at, m.port, m.bit, m.kind) }

  /** What becomes of the golden disagreements. */
  datatype Told = Told(doc: seq<Point>, docBy: set<Runner>, gap: seq<Point>, gapBy: set<Runner>, only: seq<Point>, issues: seq<Issue>)

  const NOTHING := Told([], {}, [], {}, [], [])

  // ---- provenance ------------------------------------------------------------------------------------

  function Tags(s: string): (r: seq<string>)
    ensures r != []
  {
    if s == "" then [""]
    else if s[0] == ',' then [""] + Tags(s[1..])
    else [[s[0]] + Tags(s[1..])[0]] + Tags(s[1..])[1..]
  }

  /** `_bit_prov`: the tag of the bit itself. */
  function BitProv(m: Mismatch): string {
    if m.prov.None? then ""
    else if m.bit < 0 then m.prov.value
    else
      var tags := Tags(m.prov.value);
      if |tags| == 1 then tags[0] else if m.bit < |tags| then tags[m.bit] else m.prov.value
  }

  predicate FromDoc(m: Mismatch) { "doc:" <= BitProv(m) }

  predicate Inferred(m: Mismatch) { "inferred:" <= BitProv(m) }

  /** `_observes`: the runner could have disagreed at the point. */
  predicate CouldSee(v: View, m: Mismatch) {
    (Ran(v).None? || Cfg(m.at) in Ran(v).value) && (Observes2(v.runner) || (m.expected != "x" && m.expected != "z"))
  }

  // ---- collecting ------------------------------------------------------------------------------------

  /** Every mismatch of every simulator. */
  ghost predicate Collected(e: View, group: seq<View>, all: seq<Entry>)
    requires e.trace.Some? && AllTraced(group)
  {
    && (forall v, m | v in group && Misses(e, v, m) :: Entry(v, m) in all)
    && (forall v | v in group && !InOrder(Part(e, v), Part(v, e)) :: exists m :: Entry(v, m) in all && OrderMismatched(Part(e, v), Part(v, e), m))
    && (forall x | x in all :: x.v in group && Fails(e, x.v, x.m))
  }

  ghost predicate CollectedOne(e: View, v: View, all: seq<Entry>)
    requires e.trace.Some? && v.trace.Some?
  {
    && (forall m | Misses(e, v, m) :: Entry(v, m) in all)
    && (!InOrder(Part(e, v), Part(v, e)) ==> exists m :: Entry(v, m) in all && OrderMismatched(Part(e, v), Part(v, e), m))
    && (forall x | x in all :: x.v == v && Fails(e, v, x.m))
  }

  /** A simulator against the golden model. */
  function Against(e: View, v: View): Comparison { Comparison(e, v, true, true, Observes2(v.runner)) }

  ghost function AgainstAll(e: View, group: seq<View>): set<Comparison> { set v | v in group :: Against(e, v) }

  method Entries(v: View, ms: seq<Mismatch>) returns (all: seq<Entry>)
    ensures |all| == |ms| && forall k :: 0 <= k < |ms| ==> all[k] == Entry(v, ms[k])
  {
    all := [];
    for i := 0 to |ms|
      invariant |all| == i && forall k :: 0 <= k < i ==> all[k] == Entry(v, ms[k])
    {
      all := all + [Entry(v, ms[i])];
    }
  }

  method CollectOne(e: View, v: View) returns (all: seq<Entry>, pairs: seq<Pair>)
    requires Traced(e) && Traced(v)
    ensures CollectedOne(e, v, all)
    ensures Lists(pairs, {Against(e, v)})
  {
    RestrictOk(e.trace.value, Shared(e, v));
    RestrictOk(v.trace.value, Shared(v, e));
    hide Complete, CollectedOne, TraceOk, Part, Lists;
    pairs := ListPair(e, v, true, true, Observes2(v.runner));
    var ms := Compare(Part(e, v), Part(v, e), Observes2(v.runner));
    all := Entries(v, ms);
    EntriesOf(e, v, ms, all);
  }

  lemma EntriesOf(e: View, v: View, ms: seq<Mismatch>, all: seq<Entry>)
    requires e.trace.Some? && v.trace.Some? && Complete(ms, Part(e, v), Part(v, e), Observes2(v.runner))
    requires |all| == |ms| && forall k :: 0 <= k < |ms| ==> all[k] == Entry(v, ms[k])
    ensures CollectedOne(e, v, all)
  {
    hide PortMismatch, SampleMismatch, OrderMismatched, InOrder, Part;
    forall m | m in ms
      ensures Entry(v, m) in all
    {
      var k :| 0 <= k < |ms| && ms[k] == m;
      assert all[k] == Entry(v, m);
    }
    if !InOrder(Part(e, v), Part(v, e)) {
      var m :| m in ms && OrderMismatched(Part(e, v), Part(v, e), m);
      assert Entry(v, m) in all;
    }
  }

  method Collect(e: View, group: seq<View>) returns (all: seq<Entry>, pairs: seq<Pair>)
    requires Traced(e) && AllTraced(group)
    ensures Collected(e, group, all)
    ensures Lists(pairs, AgainstAll(e, group))
  {
    hide Misses, Fails, OrderMismatched, InOrder, TraceOk, Part, Lists;
    all, pairs := [], [];
    ListsNone(AgainstAll(e, group[..0]));
    for i := 0 to |group|
      invariant Lists(pairs, AgainstAll(e, group[..i]))
      invariant forall v, m | v in group[..i] && v.trace.Some? && Misses(e, v, m) :: Entry(v, m) in all
      invariant forall v | v in group[..i] && v.trace.Some? && !InOrder(Part(e, v), Part(v, e)) ::
                  exists m :: Entry(v, m) in all && OrderMismatched(Part(e, v), Part(v, e), m)
      invariant forall x | x in all :: x.v in group && Traced(x.v) && Fails(e, x.v, x.m)
    {
      var v := group[i];
      assert v in group;
      var more, pair := CollectOne(e, v);
      ghost var was := all;
      assert group[..i + 1] == group[..i] + [v];
      ListsJoin(pairs, AgainstAll(e, group[..i]), pair, {Against(e, v)});
      assert AgainstAll(e, group[..i + 1]) == AgainstAll(e, group[..i]) + {Against(e, v)};
      all, pairs := all + more, pairs + pair;
      forall u | u in group[..i + 1] && u.trace.Some? && !InOrder(Part(e, u), Part(u, e))
        ensures exists m :: Entry(u, m) in all && OrderMismatched(Part(e, u), Part(u, e), m)
      {
        if u in group[..i] {
          ghost var m :| Entry(u, m) in was && OrderMismatched(Part(e, u), Part(u, e), m);
          assert Entry(u, m) in all;
        } else {
          ghost var m :| Entry(u, m) in more && OrderMismatched(Part(e, u), Part(u, e), m);
          assert Entry(u, m) in all;
        }
      }
    }
    assert group[..|group|] == group;
  }

  /** The mismatches by spot. */
  method BySpot(all: seq<Entry>) returns (at: map<Spot, seq<Entry>>)
    ensures forall s | s in at :: at[s] != [] && forall x | x in at[s] :: x in all && SpotOf(x.m) == s
    ensures forall x | x in all :: SpotOf(x.m) in at && x in at[SpotOf(x.m)]
    ensures all == [] ==> at == map[]
  {
    at := map[];
    for i := 0 to |all|
      invariant forall s | s in at :: at[s] != [] && forall x | x in at[s] :: x in all && SpotOf(x.m) == s
      invariant forall x | x in all[..i] :: SpotOf(x.m) in at && x in at[SpotOf(x.m)]
      invariant i == 0 ==> at == map[]
    {
      var x := all[i];
      assert all[..i + 1] == all[..i] + [x] && x in all;
      var s := SpotOf(x.m);
      at := at[s := (if s in at then at[s] else []) + [x]];
    }
    assert all[..|all|] == all;
  }

  // ---- telling ---------------------------------------------------------------------------------------

  predicate SameSpot(a: Mismatch, b: Mismatch) { SpotOf(a) == SpotOf(b) }

  /** One simulator's disagreement with the golden model is told: by a disagreement of simulators at the
      same spot, on its own, with everyone else's, or as an issue. */
  predicate Accounted(x: Entry, points: seq<Point>, t: Told) {
    || TellsSpot(points, x.m)
    || OnlyOne(x.v.runner, x.m) in t.only
    || (x.v.runner in t.docBy && exists p :: p in t.doc && p.Missed? && SameSpot(p.m, x.m))
    || (x.v.runner in t.gapBy && exists p :: p in t.gap && p.Missed? && SameSpot(p.m, x.m))
    || (exists i :: i in t.issues && (i.Structural? || i.NoProvenance?) && SameSpot(i.m, x.m))
  }

  predicate Extends(t: Told, next: Told) {
    && t.doc <= next.doc && t.docBy <= next.docBy && t.gap <= next.gap && t.gapBy <= next.gapBy
    && t.only <= next.only && t.issues <= next.issues
  }

  lemma StillAccounted(x: Entry, points: seq<Point>, t: Told, next: Told)
    requires Accounted(x, points, t) && Extends(t, next)
    ensures Accounted(x, points, next)
  {
    hide TellsSpot;
    assert forall p | p in t.doc :: p in next.doc;
    assert forall p | p in t.gap :: p in next.gap;
    assert forall p | p in t.only :: p in next.only;
    assert forall i | i in t.issues :: i in next.issues;
  }

  method OnlyOnes(xs: seq<Entry>) returns (only: seq<Point>)
    ensures |only| == |xs| && forall k :: 0 <= k < |xs| ==> only[k] == OnlyOne(xs[k].v.runner, xs[k].m)
  {
    only := [];
    for i := 0 to |xs|
      invariant |only| == i && forall k :: 0 <= k < i ==> only[k] == OnlyOne(xs[k].v.runner, xs[k].m)
    {
      only := only + [OnlyOne(xs[i].v.runner, xs[i].m)];
    }
  }

  function Runners(xs: seq<Entry>): set<Runner> { set x | x in xs :: x.v.runner }

  function Observers(group: seq<View>, m: Mismatch): set<Runner> { set v | v in group && CouldSee(v, m) :: v.runner }

  /** The body of the loop over the spots. */
  method TellSpot(group: seq<View>, xs: seq<Entry>, points: seq<Point>, t: Told) returns (next: Told)
    requires xs != [] && forall x | x in xs :: SameSpot(x.m, xs[0].m)
    ensures Extends(t, next)
    ensures forall x | x in xs :: Accounted(x, points, next)
  {
    var m := xs[0].m;
    assert xs[0] in xs;
    next := t;
    if TellsSpot(points, m) { return; }
    hide TellsSpot;
    var observers := Observers(group, m);
    if Runners(xs) != observers {
      var only := OnlyOnes(xs);
      next := t.(only := t.only + only);
      forall x | x in xs
        ensures OnlyOne(x.v.runner, x.m) in next.only
      {
        var k :| 0 <= k < |xs| && xs[k] == x;
        assert only[k] in only;
      }
      assert only[0] == next.only[|t.only|];
      return;
    }
    assert forall x | x in xs :: x.v.runner in observers;
    if m.kind != Value || m.bit < 0 {
      next := t.(issues := t.issues + [Structural(m)]);
      assert Structural(m) in next.issues;
    } else if FromDoc(m) {
      next := t.(doc := t.doc + [Missed(m)], docBy := t.docBy + observers);
      assert Missed(m) in next.doc;
    } else if Inferred(m) {
      next := t.(gap := t.gap + [Missed(m)], gapBy := t.gapBy + observers);
      assert Missed(m) in next.gap;
    } else {
      next := t.(issues := t.issues + [NoProvenance(m)]);
      assert NoProvenance(m) in next.issues;
    }
  }

  /** The loop over the spots. */
  method TellAll(group: seq<View>, all: seq<Entry>, points: seq<Point>) returns (t: Told)
    ensures forall x | x in all :: Accounted(x, points, t)
    ensures all == [] ==> t == NOTHING
  {
    hide Accounted, TellsSpot, Extends;
    var at := BySpot(all);
    var left := at.Keys;
    ghost var done: set<Spot> := {};
    t := NOTHING;
    while left != {}
      invariant left + done == at.Keys
      invariant forall x | x in all && SpotOf(x.m) in done :: Accounted(x, points, t)
      invariant all == [] ==> t == NOTHING
      decreases left
    {
      var s :| s in left;
      assert at[s][0] in at[s];
      var next := TellSpot(group, at[s], points, t);
      forall x | x in all && SpotOf(x.m) in done + {s}
        ensures Accounted(x, points, next)
      {
        if SpotOf(x.m) in done { StillAccounted(x, points, t, next); }
      }
      t, left, done := next, left - {s}, done + {s};
    }
  }

  // ---- rejections ------------------------------------------------------------------------------------

  function Accepting(group: seq<View>, c: string): set<Runner> { set v | v in group && Rejects(v, c) == Some(false) :: v.runner }

  /** A configuration the golden model rejects and the simulator accepts is told. */
  predicate RejectionTold(v: View, c: string, points: seq<Point>, t: Told) {
    TellsRejection(points, c) || (v.runner in t.gapBy && exists p :: p in t.gap && p.Accepted? && p.cfg == c && v.runner in p.accepting)
  }

  method TellRejections(e: View, group: seq<View>, reject: set<string>, points: seq<Point>, t: Told) returns (next: Told)
    ensures Extends(t, next)
    ensures forall v, c | v in group && c in reject && Rejects(e, c) == Some(true) && Rejects(v, c) == Some(false) ::
              RejectionTold(v, c, points, next)
    ensures (forall v, c | v in group && c in reject && Rejects(e, c) == Some(true) :: Rejects(v, c) != Some(false)) ==> next == t
  {
    hide Rejects, TellsRejection;
    var left := set c | c in reject && Rejects(e, c) == Some(true) && !TellsRejection(points, c);
    ghost var all, done: set<string> := left, {};
    next := t;
    while left != {}
      invariant left + done == all && Extends(t, next)
      invariant forall v, c | v in group && c in done && Rejects(v, c) == Some(false) :: RejectionTold(v, c, points, next)
      invariant (forall v, c | v in group && c in all :: Rejects(v, c) != Some(false)) ==> next == t
      decreases left
    {
      var c :| c in left;
      var accepting := Accepting(group, c);
      ghost var was := next;
      if accepting != {} {
        next := next.(gap := next.gap + [Accepted(c, accepting)], gapBy := next.gapBy + accepting);
        assert Accepted(c, accepting) in next.gap;
      }
      assert forall p | p in was.gap :: p in next.gap;
      left, done := left - {c}, done + {c};
    }
  }

  // ---- the golden model against a group --------------------------------------------------------------

  /** `_golden_vs_sims`, `points` being the disagreements among the simulators. */
  method GoldenVsSims(e: View, group: seq<View>, reject: set<string>, points: seq<Point>) returns (t: Told, pairs: seq<Pair>)
    requires Traced(e) && AllTraced(group)
    ensures GoldenTold(e, group, reject, points, t)
    ensures Lists(pairs, AgainstAll(e, group))
    ensures (forall v | v in group :: AsPredicted(e, v, reject)) ==> t == NOTHING
  {
    hide TraceOk, Accounted, RejectionTold, Collected, Misses, Fails, OrderMismatched, InOrder, Part, Conforms, Rejects, Extends, Lists;
    var all;
    all, pairs := Collect(e, group);
    var first := TellAll(group, all, points);
    t := TellRejections(e, group, reject, points, first);
    forall x | x in all
      ensures Accounted(x, points, t)
    {
      StillAccounted(x, points, first, t);
    }
    ToldAll(e, group, reject, points, all, t);
    if forall v | v in group :: AsPredicted(e, v, reject) { NothingCollected(e, group, reject, all); }
  }

  /** Every disagreement with the golden model is told. */
  ghost predicate GoldenTold(e: View, group: seq<View>, reject: set<string>, points: seq<Point>, t: Told)
    requires Traced(e) && AllTraced(group)
  {
    && (forall v, m | v in group && Misses(e, v, m) :: Accounted(Entry(v, m), points, t))
    && (forall v | v in group && !InOrder(Part(e, v), Part(v, e)) ::
          exists m :: OrderMismatched(Part(e, v), Part(v, e), m) && Accounted(Entry(v, m), points, t))
    && (forall v, c | v in group && c in reject && Rejects(e, c) == Some(true) && Rejects(v, c) == Some(false) ::
          RejectionTold(v, c, points, t))
  }

  lemma ToldAll(e: View, group: seq<View>, reject: set<string>, points: seq<Point>, all: seq<Entry>, t: Told)
    requires Traced(e) && AllTraced(group) && Collected(e, group, all)
    requires forall x | x in all :: Accounted(x, points, t)
    requires forall v, c | v in group && c in reject && Rejects(e, c) == Some(true) && Rejects(v, c) == Some(false) :: RejectionTold(v, c, points, t)
    ensures GoldenTold(e, group, reject, points, t)
  {
    hide TraceOk, Accounted, RejectionTold, Misses, Fails, OrderMismatched, InOrder, Part, Rejects;
    forall v | v in group && !InOrder(Part(e, v), Part(v, e))
      ensures exists m :: OrderMismatched(Part(e, v), Part(v, e), m) && Accounted(Entry(v, m), points, t)
    {
      var m :| Entry(v, m) in all && OrderMismatched(Part(e, v), Part(v, e), m);
      assert Accounted(Entry(v, m), points, t);
    }
  }

  lemma NothingCollected(e: View, group: seq<View>, reject: set<string>, all: seq<Entry>)
    requires Traced(e) && AllTraced(group) && Collected(e, group, all)
    requires forall v | v in group :: AsPredicted(e, v, reject)
    ensures all == []
  {
    if all != [] {
      var x := all[0];
      assert x in all;
      RestrictOk(e.trace.value, Shared(e, x.v));
      RestrictOk(x.v.trace.value, Shared(x.v, e));
      ConformsNone(Part(e, x.v), Part(x.v, e), Observes2(x.v.runner), x.m);
      assert false;
    }
  }

  lemma ConformsNone(e: Trace, a: Trace, x: bool, m: Mismatch)
    requires TraceOk(e) && TraceOk(a) && Conforms(e, a, x)
    ensures !IsMismatch(e, a, x, m)
  {
    assert e.samples.Keys == a.samples.Keys;
    SameLabels(e, a);
    if m.at in e.samples && m.port in e.samples[m.at] {
      assert SameBits(e.samples[m.at][m.port], a.samples[m.at][m.port], x);
    }
  }

  /** When nothing is told, every simulator does as predicted. */
  lemma NothingTold(e: View, group: seq<View>, reject: set<string>)
    requires Traced(e) && AllTraced(group) && GoldenTold(e, group, reject, [], NOTHING)
    ensures forall v | v in group :: AsPredicted(e, v, reject)
  {
    forall v | v in group
      ensures AsPredicted(e, v, reject)
    {
      OneNothingTold(e, group, reject, v);
    }
  }

  lemma OneNothingTold(e: View, group: seq<View>, reject: set<string>, v: View)
    requires Traced(e) && AllTraced(group) && GoldenTold(e, group, reject, [], NOTHING) && v in group
    ensures AsPredicted(e, v, reject)
  {
    RestrictOk(e.trace.value, Shared(e, v));
    RestrictOk(v.trace.value, Shared(v, e));
    hide PortMismatch, SampleMismatch, OrderMismatched, InOrder, TraceOk, Part, Conforms, Rejects;
    forall x: Entry
      ensures !Accounted(x, [], NOTHING)
    {}
    assert Complete([], Part(e, v), Part(v, e), Observes2(v.runner)) by {
      forall m
        ensures !PortMismatch(Part(e, v), Part(v, e), Observes2(v.runner), m) && !SampleMismatch(Part(e, v), Part(v, e), m)
      {
        assert Misses(e, v, m) ==> Accounted(Entry(v, m), [], NOTHING);
      }
    }
    CompareExact([], Part(e, v), Part(v, e), Observes2(v.runner));
    forall c | c in reject && Rejects(e, c) == Some(true)
      ensures Rejects(v, c) != Some(false)
    {
      assert !RejectionTold(v, c, [], NOTHING);
    }
  }
}
