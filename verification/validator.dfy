/** `validate` (validate.py): the checks in the order and with the bookkeeping of the source, proved to
    report nothing exactly when the rules of `Validation` hold. */
module Validator {
  import opened Wrap
  import opened Sorting
  import opened Stimulus
  import opened Validation

  /** A message of the report: the rule and the time it concerns. */
  datatype Finding = Finding(rule: string, t: int)

  class Report {
    var errors: seq<Finding>
    var hw: seq<Finding>
    var xInputs: bool  // some set drives x or z: 2-state runners must skip the file

    constructor ()
      ensures errors == [] && hw == [] && !xInputs
    {
      errors, hw, xInputs := [], [], false;
    }

    predicate Ok()
      reads this
    {
      errors == []
    }

    /** Order-renderable on the stepped hardware harness; never with errors. */
    predicate HwRenderable()
      reads this
    {
      errors == [] && hw == []
    }

    method Error(rule: string, t: int)
      modifies this`errors
      ensures errors == old(errors) + [Finding(rule, t)]
    {
      errors := errors + [Finding(rule, t)];
    }

    method Reason(rule: string, t: int)
      modifies this`hw
      ensures hw == old(hw) + [Finding(rule, t)]
    {
      hw := hw + [Finding(rule, t)];
    }
  }

  // ---- file-level checks -----------------------------------------------------------------------------

  /** `_check_header`. */
  method CheckHeader(v: Vec, m: DutMap, r: Report)
    modifies r`errors
    ensures r.errors == [] <==> old(r.errors) == [] && HeaderMatches(v, m)
  {
    if v.header.nin != m.nin { r.Error("nin", v.header.nin); }
    if v.header.nout != m.nout { r.Error("nout", v.header.nout); }
    if v.header.nclk != m.nclk { r.Error("nclk", v.header.nclk); }
    if v.header.prim != m.prim { r.Error("prim", 0); }
    if v.header.cfg != m.cfg { r.Error("cfg", 0); }
    var keys := v.header.attrs.Keys + m.attrs.Keys;
    ghost var seen: set<string> := {};
    ghost var was := r.errors;
    while keys != {}
      invariant keys + seen == v.header.attrs.Keys + m.attrs.Keys
      invariant r.errors == [] <==> was == [] && forall k | k in seen :: Same(v.header.attrs, m.attrs, k)
      decreases keys
    {
      var k :| k in keys;
      if !Same(v.header.attrs, m.attrs, k) { r.Error("attr", 0); }
      keys, seen := keys - {k}, seen + {k};
    }
    SameMaps(v.header.attrs, m.attrs);
    if v.header.settle < MIN_SETTLE { r.Error("settle_ps", v.header.settle); }
  }

  predicate Same(a: map<string, string>, b: map<string, string>, k: string) {
    (k in a <==> k in b) && (k in a && k in b ==> a[k] == b[k])
  }

  lemma SameMaps(a: map<string, string>, b: map<string, string>)
    ensures (forall k | k in a.Keys + b.Keys :: Same(a, b, k)) <==> a == b
  {
    if forall k | k in a.Keys + b.Keys :: Same(a, b, k) {
      forall k
        ensures k in a <==> k in b
        ensures k in a && k in b ==> a[k] == b[k]
      {
        if k in a.Keys + b.Keys { assert Same(a, b, k); }
      }
      assert a == b;
    }
  }

  /** `_check_map_hw`. */
  method CheckMapHw(v: Vec, m: DutMap, r: Report)
    modifies r`hw
    ensures r.hw == [] <==> old(r.hw) == [] && NoPads(m) && forall c | c in v.clocks :: !c.free
  {
    if exists b :: b in m.bits && (b.cls == Pad || b.cls == Bidir || b.role != Plain) { r.Reason("pad", 0); }
    if exists c :: c in v.clocks && c.free { r.Reason("free-running clock", 0); }
  }

  /** The times of the events but initialisation, ascending. */
  function TimesOf(es: seq<Event>): seq<int> {
    if es == [] then [] else (if Initial(es[0]) then [] else [es[0].t]) + TimesOf(es[1..])
  }

  function Id(x: int): int { x }

  lemma {:induction false} TimesIn(es: seq<Event>)
    ensures forall t :: t in TimesOf(es) ==> exists e :: e in es && !Initial(e) && e.t == t
    ensures forall e | e in es && !Initial(e) :: e.t in TimesOf(es)
  {
    if es != [] {
      TimesIn(es[1..]);
      assert es == [es[0]] + es[1..];
      forall t | t in TimesOf(es)
        ensures exists e :: e in es && !Initial(e) && e.t == t
      {
        if t in TimesOf(es[1..]) {
          var e :| e in es[1..] && !Initial(e) && e.t == t;
          assert e in es;
        } else {
          assert es[0] in es;
        }
      }
    }
  }

  predicate Spaced(ts: seq<int>, gap: int) { forall i, j :: 0 <= i < j < |ts| && ts[i] < ts[j] ==> ts[j] - ts[i] >= gap }

  /** `_check_event_gaps`: neighbours of the sorted times suffice. */
  method CheckEventGaps(v: Vec, gap: int, r: Report)
    modifies r`hw
    ensures r.hw == [] <==> old(r.hw) == [] && GapsOk(v.events, gap)
  {
    var ts := Sort(TimesOf(v.events), Id);
    SortSorted(TimesOf(v.events), Id);
    ghost var was := r.hw;
    for i := 0 to |ts|
      invariant r.hw == [] <==> was == [] && Spaced(ts[..i], gap)
    {
      SpacedStep(ts, i, gap);
      if i > 0 && ts[i - 1] < ts[i] && ts[i] - ts[i - 1] < gap { r.Reason("event gap", ts[i]); }
    }
    assert ts[..|ts|] == ts;
    SpacedIs(v.events, ts, gap);
  }

  lemma SpacedStep(ts: seq<int>, i: nat, gap: int)
    requires i < |ts| && SortedBy(ts, Id)
    ensures Spaced(ts[..i + 1], gap) <==> Spaced(ts[..i], gap) && (i > 0 && ts[i - 1] < ts[i] ==> ts[i] - ts[i - 1] >= gap)
  {
    assert forall k :: 0 <= k < i ==> Id(ts[k]) <= Id(ts[i - 1]) <= Id(ts[i]);
    if Spaced(ts[..i + 1], gap) && i > 0 {
      assert ts[..i + 1][i - 1] == ts[i - 1] && ts[..i + 1][i] == ts[i];
      forall a, b | 0 <= a < b < i && ts[..i][a] < ts[..i][b]
        ensures ts[..i][b] - ts[..i][a] >= gap
      {
        assert ts[..i + 1][a] == ts[a] && ts[..i + 1][b] == ts[b];
      }
    }
    if Spaced(ts[..i], gap) && i > 0 && (ts[i - 1] < ts[i] ==> ts[i] - ts[i - 1] >= gap) {
      var s := ts[..i + 1];
      forall a, b | 0 <= a < b < |s| && s[a] < s[b]
        ensures s[b] - s[a] >= gap
      {
        if b < i {
          assert ts[..i][a] == ts[a] && ts[..i][b] == ts[b];
        } else if ts[i - 1] == ts[i] && a < i - 1 {
          assert ts[..i][a] == ts[a] && ts[..i][i - 1] == ts[i - 1];
        }
      }
    }
  }

  lemma SpacedIs(es: seq<Event>, ts: seq<int>, gap: int)
    requires SortedBy(ts, Id) && multiset(ts) == multiset(TimesOf(es))
    ensures Spaced(ts, gap) <==> GapsOk(es, gap)
  {
    TimesIn(es);
    hide TimesOf;
    forall t
      ensures t in ts <==> t in TimesOf(es)
    {
      assert t in multiset(ts) <==> t in multiset(TimesOf(es));
    }
    if Spaced(ts, gap) { SpacedGaps(es, ts, gap); }
    if GapsOk(es, gap) {
      forall i, j | 0 <= i < j < |ts| && ts[i] < ts[j]
        ensures ts[j] - ts[i] >= gap
      {
        assert ts[i] in ts && ts[j] in ts;
        var a :| a in es && !Initial(a) && a.t == ts[i];
        var b :| b in es && !Initial(b) && b.t == ts[j];
      }
    }
  }

  lemma SpacedGaps(es: seq<Event>, ts: seq<int>, gap: int)
    requires SortedBy(ts, Id) && Spaced(ts, gap) && forall e | e in es && !Initial(e) :: e.t in ts
    ensures GapsOk(es, gap)
  {
    hide Initial;
    forall a, b | a in es && b in es && !Initial(a) && !Initial(b) && a.t < b.t
      ensures b.t - a.t >= gap
    {
      var i :| 0 <= i < |ts| && ts[i] == a.t;
      var j :| 0 <= j < |ts| && ts[j] == b.t;
      var p, q := if i < j then i else j, if i < j then j else i;
      assert p < q ==> Id(ts[p]) <= Id(ts[q]);
    }
  }

  /** The first start of a clock after a time, in file order. */
  function FirstStart(es: seq<Event>, clk: int, t: int): Option<int> {
    if es == [] then None
    else if StartOf(es[0], clk) && es[0].t > t then Some(es[0].t)
    else FirstStart(es[1..], clk, t)
  }

  lemma {:induction false} FirstStartIs(es: seq<Event>, clk: int, t: int, bound: int)
    requires SortedBy(es, Time)
    ensures var f := FirstStart(es, clk, t);
            (f.Some? ==> f.value >= bound) <==> forall e | e in es && StartOf(e, clk) && e.t > t :: e.t >= bound
  {
    if es != [] {
      SortedHead(es, Time);
      assert es == [es[0]] + es[1..];
      FirstStartIs(es[1..], clk, t, bound);
      if StartOf(es[0], clk) && es[0].t > t {
        assert es[0] in es;
        forall e | e in es && es[0].t >= bound
          ensures e.t >= bound
        {
          assert e in es[1..] ==> Time(es[0]) <= Time(e);
        }
      }
    }
  }

  /** `_check_free_stops`. */
  method CheckFreeStops(v: Vec, r: Report)
    requires ClocksOk(v) && Ordered(v.events)
    modifies r`errors
    ensures r.errors == [] <==> old(r.errors) == [] && StopsOk(v)
  {
    RunClocks(v, v.clocks);
    var runs := FreeRuns(v);
    ghost var was := r.errors;
    assert SortedBy(v.events, Time);
    for i := 0 to |runs|
      invariant r.errors == [] <==> was == [] && forall k :: 0 <= k < i ==> runs[k].clock.period > 0 && StopOk(v, runs[k])
    {
      var run := runs[i];
      assert run in runs;
      if run.stop.Some? {
        var c, stop := run.clock, run.stop.value;
        var pos := (stop - run.start) % c.period;
        if !(High(c) < pos) { r.Error("clock_stop", stop); }
        var restart := FirstStart(v.events, c.index, stop);
        FirstStartIs(v.events, c.index, stop, stop + (c.period - pos));
        if restart.Some? && restart.value < stop + (c.period - pos) { r.Error("clock_start", restart.value); }
      }
    }
    assert forall x | x in runs :: exists k :: 0 <= k < |runs| && runs[k] == x;
    assert forall k :: 0 <= k < |runs| ==> runs[k] in runs;
  }

  /** `_check_gsr_release`. */
  method CheckGsrRelease(tl: seq<Event>, sep: int, r: Report)
    modifies r`errors
    ensures r.errors == [] <==> old(r.errors) == [] && ClearOfRelease(tl, sep)
  {
    ghost var was := r.errors;
    for i := 0 to |tl|
      invariant r.errors == [] <==> was == [] && forall k :: 0 <= k < i ==> Abs(tl[k].t - ROC_WIDTH) >= sep
    {
      if Abs(tl[i].t - ROC_WIDTH) < sep { r.Error("GSR release", tl[i].t); }
    }
    assert forall e | e in tl :: exists k :: 0 <= k < |tl| && tl[k] == e;
    assert forall k :: 0 <= k < |tl| ==> tl[k] in tl;
  }

  /** `_check_reject`. */
  method CheckReject(v: Vec, r: Report)
    modifies r`errors
    ensures r.errors == [] <==> old(r.errors) == [] && RejectOk(v.header)
  {
    var h := v.header;
    if h.reject {
      var names := if h.illegal.Some? then h.illegal.value else [];
      if names == [] { r.Error("reject", 0); }
      ghost var was := r.errors;
      for i := 0 to |names|
        invariant r.errors == [] <==> was == [] && forall k :: 0 <= k < i ==> names[k] in h.attrs
      {
        if names[i] !in h.attrs { r.Error("illegal", 0); }
      }
      assert forall n | n in names :: exists k :: 0 <= k < |names| && names[k] == n;
      assert forall k :: 0 <= k < |names| ==> names[k] in names;
    } else if h.illegal.Some? {
      r.Error("illegal", 0);
    }
  }

  /** `bisect_left`: the first index whose time is not before `t`. */
  method Bisect(ts: seq<int>, t: int) returns (lo: nat)
    requires SortedBy(ts, Id)
    ensures lo <= |ts| && (forall k :: 0 <= k < lo ==> ts[k] < t) && (forall k :: lo <= k < |ts| ==> ts[k] >= t)
  {
    var hi := |ts|;
    lo := 0;
    while lo < hi
      invariant 0 <= lo <= hi <= |ts|
      invariant forall k :: 0 <= k < lo ==> ts[k] < t
      invariant forall k :: hi <= k < |ts| ==> ts[k] >= t
    {
      var mid := (lo + hi) / 2;
      assert forall k :: 0 <= k < mid ==> Id(ts[k]) <= Id(ts[mid]);
      assert forall k :: mid < k < |ts| ==> Id(ts[mid]) <= Id(ts[k]);
      if ts[mid] < t { lo := mid + 1; } else { hi := mid; }
    }
  }

  /** `_nearest`: how far the nearest time of a sorted list is. */
  method Nearest(ts: seq<int>, t: int) returns (d: Option<int>)
    requires SortedBy(ts, Id)
    ensures d.None? <==> ts == []
    ensures d.Some? ==> (exists x :: x in ts && Abs(x - t) == d.value) && forall x | x in ts :: Abs(x - t) >= d.value
  {
    var i := Bisect(ts, t);
    d := None;
    if i > 0 {
      d := Some(Abs(ts[i - 1] - t));
      assert ts[i - 1] in ts;
    }
    if i < |ts| && (d.None? || Abs(ts[i] - t) < d.value) {
      d := Some(Abs(ts[i] - t));
      assert ts[i] in ts;
    }
    NearestIs(ts, t, i);
  }

  lemma NearestIs(ts: seq<int>, t: int, i: nat)
    requires SortedBy(ts, Id) && i <= |ts| && (forall k :: 0 <= k < i ==> ts[k] < t) && (forall k :: i <= k < |ts| ==> ts[k] >= t)
    ensures forall x | x in ts :: (i > 0 && Abs(x - t) >= Abs(ts[i - 1] - t)) || (i < |ts| && Abs(x - t) >= Abs(ts[i] - t))
  {
    forall x | x in ts
      ensures (i > 0 && Abs(x - t) >= Abs(ts[i - 1] - t)) || (i < |ts| && Abs(x - t) >= Abs(ts[i] - t))
    {
      var k :| 0 <= k < |ts| && ts[k] == x;
      if k < i {
        assert k < i - 1 ==> Id(ts[k]) <= Id(ts[i - 1]);
      } else {
        assert i < k ==> Id(ts[i]) <= Id(ts[k]);
      }
    }
  }

  // ---- one time of the timeline ----------------------------------------------------------------------

  ghost predicate AllAt(grp: seq<Event>, t: int) { forall e | e in grp :: e.t == t }

  predicate AfterChange(grp: seq<Event>, lastChange: Option<int>) {
    lastChange.Some? ==> forall e | e in grp && e.Sample? :: e.t - lastChange.value >= MIN_SEP
  }

  /** Samples: not beside a change, and not too soon after the last one. */
  method CheckSamples(grp: seq<Event>, t: int, lastChange: Option<int>, r: Report)
    requires AllAt(grp, t)
    modifies r`errors
    ensures r.errors == [] <==> old(r.errors) == [] && SamplesApart(grp) && AfterChange(grp, lastChange)
  {
    var sampled, changed := false, false;
    for i := 0 to |grp|
      invariant sampled <==> exists k :: 0 <= k < i && grp[k].Sample?
      invariant changed <==> exists k :: 0 <= k < i && Change(grp[k])
    {
      if grp[i].Sample? { sampled := true; }
      if Change(grp[i]) { changed := true; }
    }
    ApartInGroup(grp, t, sampled, changed);
    if sampled && changed { r.Error("sample beside a change", t); }
    ghost var was := r.errors;
    for i := 0 to |grp|
      invariant r.errors == [] <==> was == [] && forall k :: 0 <= k < i ==> LateEnough(grp[k], lastChange)
    {
      if !LateEnough(grp[i], lastChange) { r.Error("sample after a change", t); }
    }
    assert forall k :: 0 <= k < |grp| ==> grp[k] in grp;
    assert AfterChange(grp, lastChange) <==> forall k :: 0 <= k < |grp| ==> LateEnough(grp[k], lastChange);
  }

  predicate LateEnough(e: Event, lastChange: Option<int>) {
    e.Sample? && lastChange.Some? ==> e.t - lastChange.value >= MIN_SEP
  }

  lemma ApartInGroup(grp: seq<Event>, t: int, sampled: bool, changed: bool)
    requires AllAt(grp, t)
    requires sampled <==> exists k :: 0 <= k < |grp| && grp[k].Sample?
    requires changed <==> exists k :: 0 <= k < |grp| && Change(grp[k])
    ensures SamplesApart(grp) <==> !(sampled && changed)
  {
    if sampled && changed {
      var i :| 0 <= i < |grp| && grp[i].Sample?;
      var j :| 0 <= j < |grp| && Change(grp[j]);
      assert grp[i] in grp && grp[j] in grp;
    }
  }

  function CountChanges(grp: seq<Event>): nat {
    if grp == [] then 0 else (if Change(grp[0]) then 1 else 0) + CountChanges(grp[1..])
  }

  lemma {:induction false} SomeChange(grp: seq<Event>)
    ensures CountChanges(grp) >= 1 <==> exists k :: 0 <= k < |grp| && Change(grp[k])
  {
    if grp != [] {
      SomeChange(grp[1..]);
      if k :| 0 <= k < |grp[1..]| && Change(grp[1..][k]) { assert Change(grp[k + 1]); }
      if k :| 0 < k < |grp| && Change(grp[k]) { assert Change(grp[1..][k - 1]); }
    }
  }

  lemma {:induction false} TwoOfThem(grp: seq<Event>)
    ensures CountChanges(grp) >= 2 <==> exists i, j :: 0 <= i < j < |grp| && Change(grp[i]) && Change(grp[j])
  {
    if grp != [] {
      TwoOfThem(grp[1..]);
      SomeChange(grp[1..]);
      if CountChanges(grp) >= 2 {
        if CountChanges(grp[1..]) >= 2 {
          var i, j :| 0 <= i < j < |grp[1..]| && Change(grp[1..][i]) && Change(grp[1..][j]);
          assert Change(grp[i + 1]) && Change(grp[j + 1]);
        } else {
          var k :| 0 <= k < |grp[1..]| && Change(grp[1..][k]);
          assert Change(grp[0]) && Change(grp[k + 1]);
        }
      }
      if i, j :| 0 <= i < j < |grp| && Change(grp[i]) && Change(grp[j]) {
        assert Change(grp[1..][j - 1]);
        if i > 0 { assert Change(grp[1..][i - 1]); }
      }
    }
  }

  /** The alone rule of one time, and the one about mixed sets. */
  lemma AloneInGroup(grp: seq<Event>, m: DutMap, t: int, lonely: bool)
    requires Numbered(m) && AllAt(grp, t)
    requires lonely <==> exists k :: 0 <= k < |grp| && Lonely(m, grp[k])
    ensures Alone(grp, m) <==> AllMarked(grp, t) || !(CountChanges(grp) >= 2 && lonely)
  {
    TwoOfThem(grp);
    hide Lonely, CountChanges, Numbered;
    assert forall k :: 0 <= k < |grp| ==> grp[k] in grp;
    if CountChanges(grp) >= 2 && lonely && !AllMarked(grp, t) {
      var k :| 0 <= k < |grp| && Lonely(m, grp[k]);
      LonelyChange(m, grp[k]);
      var i, j :| 0 <= i < j < |grp| && Change(grp[i]) && Change(grp[j]);
      var o := if i == k then j else i;
      assert k != o && Change(grp[o]) && grp[k].t == grp[o].t;
    }
  }

  lemma LonelyChange(m: DutMap, e: Event)
    requires Numbered(m) && Lonely(m, e)
    ensures Change(e)
  {}

  method CheckAlone(grp: seq<Event>, m: DutMap, t: int, r: Report)
    requires Numbered(m) && AllAt(grp, t)
    modifies r`errors
    ensures r.errors == [] <==> old(r.errors) == [] && Alone(grp, m) && NoMixedSets(grp, m)
  {
    hide Lonely, Numbered, Unmixed;
    var lonely, mixed, marked := false, false, true;
    for i := 0 to |grp|
      invariant lonely <==> exists k :: 0 <= k < i && Lonely(m, grp[k])
      invariant mixed <==> exists k :: 0 <= k < i && grp[k].Set? && !Unmixed(m, grp[k])
      invariant marked <==> forall k :: 0 <= k < i ==> Change(grp[k]) ==> grp[k].sim
    {
      if Lonely(m, grp[i]) { lonely := true; }
      if grp[i].Set? && !Unmixed(m, grp[i]) { mixed := true; }
      if Change(grp[i]) && !grp[i].sim { marked := false; }
    }
    AloneInGroup(grp, m, t, lonely);
    hide CountChanges, Alone;
    assert forall k :: 0 <= k < |grp| ==> grp[k] in grp;
    assert marked <==> AllMarked(grp, t);
    assert NoMixedSets(grp, m) <==> marked || !mixed;
    var n := Changes(grp);
    if !marked {
      if mixed { r.Error("mixed set", t); }
      if n >= 2 && lonely { r.Error("must be alone", t); }
    }
  }

  method Changes(grp: seq<Event>) returns (n: nat)
    ensures n == CountChanges(grp)
  {
    n := 0;
    assert grp[0..] == grp;
    for i := 0 to |grp|
      invariant n + CountChanges(grp[i..]) == CountChanges(grp)
    {
      assert grp[i..][0] == grp[i] && grp[i..][1..] == grp[i + 1..];
      if Change(grp[i]) { n := n + 1; }
    }
    assert grp[|grp|..] == [];
  }

  // ---- the changes of one time -----------------------------------------------------------------------

  /** `_check_set_classes`, for one set. */
  predicate NoClockIn(m: DutMap, e: Event)
    requires Numbered(m)
  {
    InRange(m, e) ==> forall b :: e.lsb <= b <= e.msb ==> InClass(m, b) != ClockIn
  }

  predicate ApartFrom(m: DutMap, e: Event, edges: seq<int>, sep: int)
    requires Numbered(m)
  {
    Separated(m, e) ==> forall x | x in edges :: Abs(x - e.t) >= sep
  }

  predicate Computed(v: Vec, e: Event)
    requires ClocksOk(v)
  {
    e.Edge? && DeclaredFree(v, e.clk) ==> Edge(e.t, false, e.clk, e.rise) in FreeEdges(v)
  }

  /** One change, but for the alternation of stepped edges. */
  method CheckChange(v: Vec, m: DutMap, e: Event, edges: seq<int>, sep: int, r: Report)
    requires ClocksOk(v) && Numbered(m) && SortedBy(edges, Id) && (e.Edge? || e.Glbl? || e.Set?)
    modifies r
    ensures r.errors == [] <==> old(r.errors) == [] && Computed(v, e) && NoClockIn(m, e) && ApartFrom(m, e, edges, sep)
    ensures r.hw == [] <==> old(r.hw) == [] && !HasX(e) && !e.Glbl?
    ensures r.xInputs <==> old(r.xInputs) || HasX(e)
  {
    hide Numbered, SortedBy, FreeEdges, ClocksOk, InClass, Abs;
    if e.Edge? {
      if DeclaredFree(v, e.clk) && Edge(e.t, false, e.clk, e.rise) !in FreeEdges(v) { r.Error("explicit edge", e.t); }
      return;
    }
    if e.Glbl? { r.Reason("glbl", e.t); }
    if e.Set? {
      if !NoClockIn(m, e) { r.Error("clock bit", e.t); }
      if HasX(e) {
        r.Reason("x/z", e.t);
        r.xInputs := true;
      }
    }
    if Separated(m, e) {
      var d := Nearest(edges, e.t);
      if d.Some? && d.value < sep { r.Error("close to a clock edge", e.t); }
    }
  }

  /** The stepped level of every clock, as the loop keeps it. */
  predicate Tracks(v: Vec, level: map<int, bool>, done: seq<Event>) {
    forall c | c in v.clocks :: c.index in level && level[c.index] == LevelAfter(done, c.index, false)
  }

  predicate Alternate(v: Vec, done: seq<Event>) { forall c | c in v.clocks && !c.free :: Alternates(done, c.index, false) }

  ghost predicate ChangesOk(v: Vec, m: DutMap, es: seq<Event>, edges: seq<int>, sep: int)
    requires ClocksOk(v) && Numbered(m)
  {
    forall e | e in es && Change(e) :: Computed(v, e) && NoClockIn(m, e) && ApartFrom(m, e, edges, sep)
  }

  predicate Quiet(es: seq<Event>) { forall e | e in es && Change(e) :: !HasX(e) && !e.Glbl? }

  lemma OneMore(v: Vec, level: map<int, bool>, done: seq<Event>, e: Event)
    requires ClocksOk(v) && Tracks(v, level, done)
    ensures Tracks(v, if e.Edge? then level[e.clk := e.rise] else level, done + [e])
    ensures Alternate(v, done + [e]) <==>
            Alternate(v, done) && (e.Edge? && Declared(v, e.clk) && !DeclaredFree(v, e.clk) ==> level[e.clk] != e.rise)
  {
    assert [e][1..] == [];
    forall c | c in v.clocks
      ensures LevelAfter(done + [e], c.index, false) == if e.Edge? && e.clk == c.index then e.rise else LevelAfter(done, c.index, false)
      ensures Alternates(done + [e], c.index, false) <==>
              Alternates(done, c.index, false) && (e.Edge? && e.clk == c.index ==> e.rise != LevelAfter(done, c.index, false))
    {
      LevelAppend(done, [e], c.index, false);
      AlternatesSplit(done, [e], c.index, false);
    }
    OneClockEach(v);
  }

  lemma OneClockEach(v: Vec)
    requires ClocksOk(v)
    ensures forall c, d | c in v.clocks && d in v.clocks && c.index == d.index :: c == d
  {
    forall c, d | c in v.clocks && d in v.clocks && c.index == d.index
      ensures c == d
    {
      var i :| 0 <= i < |v.clocks| && v.clocks[i] == c;
      var j :| 0 <= j < |v.clocks| && v.clocks[j] == d;
      assert i < j || j < i || i == j;
    }
  }

  /** The changes of one time, in order; the level of every clock afterwards. */
  method CheckChanges(v: Vec, m: DutMap, grp: seq<Event>, edges: seq<int>, sep: int, level: map<int, bool>, ghost done: seq<Event>, r: Report)
    returns (next: map<int, bool>)
    requires ClocksOk(v) && Numbered(m) && SortedBy(edges, Id) && Tracks(v, level, done)
    requires forall e | e in grp && e.Edge? :: Declared(v, e.clk)
    modifies r
    ensures Tracks(v, next, done + grp)
    ensures r.errors == [] ==> old(r.errors) == []
    ensures r.errors == [] && Alternate(v, done) ==> ChangesOk(v, m, grp, edges, sep) && Alternate(v, done + grp)
    ensures old(r.errors) == [] && ChangesOk(v, m, grp, edges, sep) && Alternate(v, done + grp) ==> r.errors == []
    ensures r.hw == [] <==> old(r.hw) == [] && Quiet(grp)
    ensures r.xInputs <==> old(r.xInputs) || exists e :: e in grp && HasX(e)
  {
    hide ClocksOk, Numbered, SortedBy, Tracks, Alternate, Computed, NoClockIn, ApartFrom, HasX, Declared, DeclaredFree, FreeEdges;
    next := level;
    assert done + grp[..0] == done && grp[..|grp|] == grp;
    ghost var errors, hw, x := r.errors, r.hw, r.xInputs;
    for i := 0 to |grp|
      invariant Tracks(v, next, done + grp[..i])
      invariant r.errors == [] ==> errors == []
      invariant r.errors == [] && Alternate(v, done) ==> ChangesOk(v, m, grp[..i], edges, sep) && Alternate(v, done + grp[..i])
      invariant errors == [] && ChangesOk(v, m, grp[..i], edges, sep) && Alternate(v, done + grp[..i]) && Alternate(v, done) ==> r.errors == []
      invariant r.hw == [] <==> hw == [] && Quiet(grp[..i])
      invariant r.xInputs <==> x || exists e :: e in grp[..i] && HasX(e)
    {
      var e := grp[i];
      assert e in grp;
      assert grp[..i + 1] == grp[..i] + [e];
      assert done + grp[..i + 1] == done + grp[..i] + [e];
      OneMore(v, next, done + grp[..i], e);
      OkMore(v, m, grp[..i], e, edges, sep);
      if Change(e) {
        CheckChange(v, m, e, edges, sep, r);
        if e.Edge? {
          if !DeclaredFree(v, e.clk) {
            LevelKnown(v, next, done + grp[..i], e.clk);
            if next[e.clk] == e.rise { r.Error("edges must alternate", e.t); }
          }
          next := next[e.clk := e.rise];
        }
      } else {
        NoChange(e);
      }
    }
    AlternateSplit(v, done, grp);
  }

  lemma NoChange(e: Event)
    requires !Change(e)
    ensures !HasX(e) && !e.Edge?
  {}

  lemma LevelKnown(v: Vec, level: map<int, bool>, done: seq<Event>, clk: int)
    requires Tracks(v, level, done) && Declared(v, clk)
    ensures clk in level
  {
    var c :| c in v.clocks && c.index == clk;
  }

  lemma AlternateSplit(v: Vec, a: seq<Event>, b: seq<Event>)
    ensures Alternate(v, a + b) ==> Alternate(v, a)
  {
    forall c | c in v.clocks && !c.free
      ensures Alternates(a + b, c.index, false) ==> Alternates(a, c.index, false)
    {
      AlternatesSplit(a, b, c.index, false);
    }
  }

  lemma OkMore(v: Vec, m: DutMap, es: seq<Event>, e: Event, edges: seq<int>, sep: int)
    requires ClocksOk(v) && Numbered(m)
    ensures ChangesOk(v, m, es + [e], edges, sep) <==>
            ChangesOk(v, m, es, edges, sep) && (Change(e) ==> Computed(v, e) && NoClockIn(m, e) && ApartFrom(m, e, edges, sep))
    ensures Quiet(es + [e]) <==> Quiet(es) && (Change(e) ==> !HasX(e) && !e.Glbl?)
    ensures (exists x :: x in es + [e] && HasX(x)) <==> (exists x :: x in es && HasX(x)) || HasX(e)
  {
    hide ClocksOk, Numbered, Computed, NoClockIn, ApartFrom, HasX, Change;
    assert forall x :: x in es + [e] <==> x in es || x == e;
  }

  // ---- the timeline ----------------------------------------------------------------------------------

  predicate TimeBefore(a: seq<Event>, b: seq<Event>) { forall x, y | x in a && y in b :: x.t < y.t }

  /** The last time of a change. */
  ghost predicate LastChange(es: seq<Event>, last: Option<int>) {
    && (forall e | e in es && Change(e) :: last.Some? && e.t <= last.value)
    && (last.Some? ==> exists e :: e in es && Change(e) && e.t == last.value)
  }

  lemma SamplesJoin(a: seq<Event>, b: seq<Event>, last: Option<int>)
    requires TimeBefore(a, b) && LastChange(a, last)
    ensures SamplesApart(a + b) <==> SamplesApart(a) && SamplesApart(b) && AfterChange(b, last)
  {
    if SamplesApart(a + b) {
      forall x, y | x in a && y in a && x.Sample? && Change(y)
        ensures x.t != y.t && (y.t < x.t ==> x.t - y.t >= MIN_SEP)
      {
        assert x in a + b && y in a + b;
      }
      forall x, y | x in b && y in b && x.Sample? && Change(y)
        ensures x.t != y.t && (y.t < x.t ==> x.t - y.t >= MIN_SEP)
      {
        assert x in a + b && y in a + b;
      }
      if last.Some? {
        var y :| y in a && Change(y) && y.t == last.value;
        forall x | x in b && x.Sample?
          ensures x.t - last.value >= MIN_SEP
        {
          assert x in a + b && y in a + b;
        }
      }
    }
  }

  lemma TimeIndex(a: seq<Event>, b: seq<Event>)
    requires TimeBefore(a, b)
    ensures forall i, j :: 0 <= i < |a| <= j < |a + b| ==> (a + b)[i].t < (a + b)[j].t
  {
    forall i, j | 0 <= i < |a| <= j < |a + b|
      ensures (a + b)[i].t < (a + b)[j].t
    {
      assert a[i] in a && b[j - |a|] in b;
    }
  }

  lemma AloneJoin(a: seq<Event>, b: seq<Event>, m: DutMap)
    requires Numbered(m) && TimeBefore(a, b)
    ensures Alone(a + b, m) <==> Alone(a, m) && Alone(b, m)
    ensures NoMixedSets(a + b, m) <==> NoMixedSets(a, m) && NoMixedSets(b, m)
  {
    hide Numbered, Lonely, Unmixed;
    var all := a + b;
    forall e | e in a
      ensures AllMarked(all, e.t) <==> AllMarked(a, e.t)
    {}
    forall e | e in b
      ensures AllMarked(all, e.t) <==> AllMarked(b, e.t)
    {}
    hide AllMarked;
    if Alone(all, m) {
      forall i, j | 0 <= i < |a| && 0 <= j < |a| && i != j && a[i].t == a[j].t && Change(a[i]) && Change(a[j])
        ensures !AllMarked(a, a[i].t) ==> !Lonely(m, a[i])
      {
        assert all[i] == a[i] && all[j] == a[j] && a[i] in a;
      }
      forall i, j | 0 <= i < |b| && 0 <= j < |b| && i != j && b[i].t == b[j].t && Change(b[i]) && Change(b[j])
        ensures !AllMarked(b, b[i].t) ==> !Lonely(m, b[i])
      {
        assert all[|a| + i] == b[i] && all[|a| + j] == b[j] && b[i] in b;
      }
    }
    if Alone(a, m) && Alone(b, m) {
      TimeIndex(a, b);
      forall i, j | 0 <= i < |all| && 0 <= j < |all| && i != j && all[i].t == all[j].t && Change(all[i]) && Change(all[j])
        ensures !AllMarked(all, all[i].t) ==> !Lonely(m, all[i])
      {
        if i < |a| {
          assert j < |a|;
          assert a[i] == all[i] && a[j] == all[j] && a[i] in a;
        } else {
          assert j >= |a|;
          assert b[i - |a|] == all[i] && b[j - |a|] == all[j] && b[i - |a|] in b;
        }
      }
    }
    assert forall e :: e in all <==> e in a || e in b;
  }

  lemma NextLast(a: seq<Event>, b: seq<Event>, last: Option<int>, t: int)
    requires TimeBefore(a, b) && LastChange(a, last) && AllAt(b, t)
    ensures LastChange(a + b, if CountChanges(b) >= 1 then Some(t) else last)
  {
    SomeChange(b);
    if CountChanges(b) >= 1 {
      var k :| 0 <= k < |b| && Change(b[k]);
      assert b[k] in b && b[k] in a + b;
    } else {
      forall e | e in b
        ensures !Change(e)
      {
        var k :| 0 <= k < |b| && b[k] == e;
      }
      if last.Some? {
        var e :| e in a && Change(e) && e.t == last.value;
        assert e in a + b;
      }
    }
  }

  /** The rules of the timeline that the loop over its times checks. */
  ghost predicate TimelineOk(v: Vec, m: DutMap, tl: seq<Event>, edges: seq<int>, sep: int)
    requires ClocksOk(v) && Numbered(m)
  {
    SamplesApart(tl) && Alone(tl, m) && NoMixedSets(tl, m) && ChangesOk(v, m, tl, edges, sep) && Alternate(v, tl)
  }

  lemma TimelineJoin(v: Vec, m: DutMap, a: seq<Event>, b: seq<Event>, edges: seq<int>, sep: int, last: Option<int>)
    requires ClocksOk(v) && Numbered(m) && TimeBefore(a, b) && LastChange(a, last)
    ensures TimelineOk(v, m, a + b, edges, sep) <==> TimelineOk(v, m, a, edges, sep) && GroupOk(v, m, a, b, edges, sep, last)
  {
    hide ClocksOk, Numbered, LastChange, Computed, NoClockIn, ApartFrom, Change;
    SamplesJoin(a, b, last);
    AloneJoin(a, b, m);
    AlternateSplit(v, a, b);
    hide SamplesApart, Alone, NoMixedSets, Alternate, AfterChange;
    assert forall e :: e in a + b <==> e in a || e in b;
  }

  /** What one time adds to the rules of the timeline. */
  ghost predicate GroupOk(v: Vec, m: DutMap, done: seq<Event>, grp: seq<Event>, edges: seq<int>, sep: int, last: Option<int>)
    requires ClocksOk(v) && Numbered(m)
  {
    && SamplesApart(grp) && AfterChange(grp, last) && Alone(grp, m) && NoMixedSets(grp, m)
    && ChangesOk(v, m, grp, edges, sep) && Alternate(v, done + grp)
  }

  /** One time of the timeline. */
  method CheckGroup(v: Vec, m: DutMap, grp: seq<Event>, t: int, edges: seq<int>, sep: int, level: map<int, bool>,
                    lastChange: Option<int>, ghost done: seq<Event>, r: Report)
    returns (next: map<int, bool>, last: Option<int>)
    requires ClocksOk(v) && Numbered(m) && SortedBy(edges, Id) && Tracks(v, level, done) && AllAt(grp, t)
    requires forall e | e in grp && e.Edge? :: Declared(v, e.clk)
    modifies r
    ensures Tracks(v, next, done + grp) && last == if CountChanges(grp) >= 1 then Some(t) else lastChange
    ensures r.errors == [] ==> old(r.errors) == []
    ensures r.errors == [] && Alternate(v, done) ==> GroupOk(v, m, done, grp, edges, sep, lastChange)
    ensures old(r.errors) == [] && GroupOk(v, m, done, grp, edges, sep, lastChange) ==> r.errors == []
    ensures r.hw == [] <==> old(r.hw) == [] && Quiet(grp) && Unsimultaneous(grp)
    ensures r.xInputs <==> old(r.xInputs) || exists e :: e in grp && HasX(e)
  {
    hide ClocksOk, Numbered, Tracks, Declared, HasX, ChangesOk, Alternate, SamplesApart, Alone, NoMixedSets, AfterChange, Quiet, CountChanges,
         AllAt, SortedBy;
    CheckSamples(grp, t, lastChange, r);
    CheckAlone(grp, m, t, r);
    if exists e :: e in grp && e.sim { r.Reason("simultaneous", t); }
    next := CheckChanges(v, m, grp, edges, sep, level, done, r);
    var n := Changes(grp);
    last := if n >= 1 then Some(t) else lastChange;
  }

  /** The loop over the times of the timeline. */
  method CheckTimeline(v: Vec, m: DutMap, tl: seq<Event>, edges: seq<int>, sep: int, r: Report)
    requires ClocksOk(v) && Numbered(m) && SortedBy(edges, Id) && SortedBy(tl, Time)
    requires forall e | e in tl && e.Edge? :: Declared(v, e.clk)
    modifies r
    ensures r.errors == [] <==> old(r.errors) == [] && TimelineOk(v, m, tl, edges, sep)
    ensures r.hw == [] <==> old(r.hw) == [] && Quiet(tl) && Unsimultaneous(tl)
    ensures r.xInputs <==> old(r.xInputs) || exists e :: e in tl && HasX(e)
  {
    hide ClocksOk, Numbered, TimelineOk, Tracks, Declared, HasX, LastChange, Quiet, CountChanges, Unsimultaneous, SortedBy, TimeBefore,
         GroupOk, AllAt, Alternate;
    var level := IdleLevels(v.clocks);
    var lastChange: Option<int> := None;
    ghost var errors, hw, x := r.errors, r.hw, r.xInputs;
    Nothing(v, m, edges, sep);
    assert tl[..0] == [];
    var i := 0;
    while i < |tl|
      invariant 0 <= i <= |tl|
      invariant Cut(tl, i)
      invariant Tracks(v, level, tl[..i]) && LastChange(tl[..i], lastChange)
      invariant r.errors == [] <==> errors == [] && TimelineOk(v, m, tl[..i], edges, sep)
      invariant r.hw == [] <==> hw == [] && Quiet(tl[..i]) && Unsimultaneous(tl[..i])
      invariant r.xInputs <==> x || exists e :: e in tl[..i] && HasX(e)
    {
      var j := GroupEnd(tl, i);
      var grp := tl[i..j];
      ghost var done := tl[..i];
      assert tl[..j] == done + grp;
      GroupFacts(tl, i, j);
      TimelineJoin(v, m, done, grp, edges, sep, lastChange);
      NextLast(done, grp, lastChange, tl[i].t);
      QuietJoin(done, grp);
      OkAlternates(v, m, done, edges, sep);
      level, lastChange := CheckGroup(v, m, grp, tl[i].t, edges, sep, level, lastChange, done, r);
      i := j;
    }
    assert tl[..|tl|] == tl;
  }

  /** The timeline may be cut before index `i`. */
  predicate Cut(tl: seq<Event>, i: int) { forall a, b :: 0 <= a < i <= b < |tl| ==> tl[a].t < tl[b].t }

  predicate Unsimultaneous(es: seq<Event>) { forall e | e in es :: !e.sim }

  lemma OkAlternates(v: Vec, m: DutMap, es: seq<Event>, edges: seq<int>, sep: int)
    requires ClocksOk(v) && Numbered(m)
    ensures TimelineOk(v, m, es, edges, sep) ==> Alternate(v, es)
  {}

  lemma QuietJoin(a: seq<Event>, b: seq<Event>)
    ensures Quiet(a + b) <==> Quiet(a) && Quiet(b)
    ensures Unsimultaneous(a + b) <==> Unsimultaneous(a) && Unsimultaneous(b)
    ensures (exists e :: e in a + b && HasX(e)) <==> (exists e :: e in a && HasX(e)) || (exists e :: e in b && HasX(e))
  {
    hide Change, HasX;
    assert forall e :: e in a + b <==> e in a || e in b;
  }

  method GroupEnd(tl: seq<Event>, i: nat) returns (j: nat)
    requires i < |tl| && SortedBy(tl, Time)
    ensures i < j <= |tl| && (forall k :: i <= k < j ==> tl[k].t == tl[i].t)
    ensures forall k :: j <= k < |tl| ==> tl[k].t > tl[i].t
  {
    j := i + 1;
    while j < |tl| && tl[j].t == tl[i].t
      invariant i < j <= |tl| && forall k :: i <= k < j ==> tl[k].t == tl[i].t
    {
      j := j + 1;
    }
    forall k | j <= k < |tl|
      ensures tl[k].t > tl[i].t
    {
      assert Time(tl[i]) <= Time(tl[j]) <= Time(tl[k]) || j == k;
    }
  }

  lemma GroupFacts(tl: seq<Event>, i: nat, j: nat)
    requires i < j <= |tl| && (forall k :: i <= k < j ==> tl[k].t == tl[i].t)
    requires Cut(tl, i)
    requires forall k :: j <= k < |tl| ==> tl[k].t > tl[i].t
    ensures AllAt(tl[i..j], tl[i].t) && TimeBefore(tl[..i], tl[i..j])
    ensures Cut(tl, j)
    ensures forall e | e in tl[i..j] :: e in tl
  {
    forall x, y | x in tl[..i] && y in tl[i..j]
      ensures x.t < y.t
    {
      var a :| 0 <= a < i && tl[..i][a] == x;
      var b :| 0 <= b < |tl[i..j]| && tl[i..j][b] == y;
      assert tl[a].t < tl[i + b].t;
    }
    forall a, b | 0 <= a < j <= b < |tl|
      ensures tl[a].t < tl[b].t
    {
      if a >= i { assert tl[a].t == tl[i].t; }
    }
  }

  function IdleLevels(cs: seq<Clock>): map<int, bool> {
    if cs == [] then map[] else IdleLevels(cs[1..])[cs[0].index := false]
  }

  lemma {:induction false} IdleLevelsAre(cs: seq<Clock>)
    ensures forall c | c in cs :: c.index in IdleLevels(cs)
    ensures forall k | k in IdleLevels(cs) :: !IdleLevels(cs)[k]
  {
    if cs != [] { IdleLevelsAre(cs[1..]); }
  }

  lemma Nothing(v: Vec, m: DutMap, edges: seq<int>, sep: int)
    requires ClocksOk(v) && Numbered(m)
    ensures Tracks(v, IdleLevels(v.clocks), []) && LastChange([], None) && TimelineOk(v, m, [], edges, sep)
    ensures Quiet([]) && Unsimultaneous([])
  {
    IdleLevelsAre(v.clocks);
  }

  // ---- validate --------------------------------------------------------------------------------------

  function EdgeTimes(tl: seq<Event>): seq<int> {
    if tl == [] then [] else (if tl[0].Edge? then [tl[0].t] else []) + EdgeTimes(tl[1..])
  }

  lemma {:induction false} EdgeTimesAre(tl: seq<Event>)
    requires SortedBy(tl, Time)
    ensures SortedBy(EdgeTimes(tl), Id)
    ensures forall e | e in tl && e.Edge? :: e.t in EdgeTimes(tl)
    ensures forall x | x in EdgeTimes(tl) :: exists e :: e in tl && e.Edge? && e.t == x
  {
    if tl != [] {
      SortedHead(tl, Time);
      EdgeTimesAre(tl[1..]);
      assert tl == [tl[0]] + tl[1..];
      var rest := EdgeTimes(tl[1..]);
      forall x | x in rest
        ensures tl[0].t <= x && exists e :: e in tl && e.Edge? && e.t == x
      {
        var e :| e in tl[1..] && e.Edge? && e.t == x;
        assert Time(tl[0]) <= Time(e) && e in tl;
      }
      if tl[0].Edge? {
        SortedCons(tl[0].t, rest, Id);
        assert tl[0] in tl;
      } else {
        assert EdgeTimes(tl) == rest;
      }
    }
  }

  /** The rules that the loop checks are the rules of `ErrorFree` about the timeline and the set classes. */
  lemma TimelineRules(v: Vec, m: DutMap, tl: seq<Event>, sep: int)
    requires ClocksOk(v) && Numbered(m) && SortedBy(tl, Time)
    requires forall e | e in tl && e.Edge? :: Declared(v, e.clk)
    ensures TimelineOk(v, m, tl, EdgeTimes(tl), sep) <==>
            SamplesApart(tl) && Alone(tl, m) && NoMixedSets(tl, m) && EdgesOk(v, tl) && AsyncApart(tl, m, sep)
            && forall e | e in tl && Change(e) :: NoClockIn(m, e)
  {
    EdgeTimesAre(tl);
    ApartIs(m, tl, sep);
    ComputedIs(v, tl);
    hide SamplesApart, Alone, NoMixedSets, Numbered, ClocksOk, NoClockIn, SortedBy, EdgesOk, Alternate, Computed, ApartFrom, AsyncApart, EdgeTimes,
         Change;
  }

  lemma ComputedIs(v: Vec, tl: seq<Event>)
    requires ClocksOk(v)
    ensures EdgesOk(v, tl) <==> Alternate(v, tl) && forall e | e in tl && Change(e) :: Computed(v, e)
  {
    hide FreeEdges, ClocksOk, DeclaredFree, Alternates;
  }

  lemma ApartIs(m: DutMap, tl: seq<Event>, sep: int)
    requires Numbered(m)
    requires forall e | e in tl && e.Edge? :: e.t in EdgeTimes(tl)
    requires forall x | x in EdgeTimes(tl) :: exists e :: e in tl && e.Edge? && e.t == x
    ensures (forall e | e in tl && Change(e) :: ApartFrom(m, e, EdgeTimes(tl), sep)) <==> AsyncApart(tl, m, sep)
  {
    hide Numbered, EdgeTimes, AsyncSet;
    var edges := EdgeTimes(tl);
    if forall e | e in tl && Change(e) :: ApartFrom(m, e, edges, sep) {
      forall a, b | a in tl && b in tl && Separated(m, a) && b.Edge?
        ensures Abs(a.t - b.t) >= sep
      {
        SeparatedChange(m, a);
        assert ApartFrom(m, a, edges, sep) && b.t in edges;
      }
    }
    if AsyncApart(tl, m, sep) {
      forall e | e in tl && Change(e) && Separated(m, e)
        ensures forall x | x in edges :: Abs(x - e.t) >= sep
      {
        forall x | x in edges
          ensures Abs(x - e.t) >= sep
        {
          var b :| b in tl && b.Edge? && b.t == x;
          assert Abs(e.t - b.t) >= sep;
        }
      }
    }
  }

  lemma SeparatedChange(m: DutMap, e: Event)
    requires Numbered(m) && Separated(m, e)
    ensures Change(e)
  {}

  /** The initial sets are checked on their own, everything else on the timeline. */
  lemma AllSets(v: Vec, m: DutMap)
    requires ClocksOk(v) && Numbered(m)
    ensures NoClockBits(v.events, m) <==>
            (forall e | e in v.events && Initial(e) :: NoClockIn(m, e)) && (forall e | e in Timeline(v) && Change(e) :: NoClockIn(m, e))
    ensures (forall e | e in v.events :: !HasX(e) && !e.Glbl?) <==>
            (forall e | e in v.events && Initial(e) :: !HasX(e)) && Quiet(Timeline(v))
    ensures (forall e | e in v.events && !Initial(e) :: !e.sim) <==> Unsimultaneous(Timeline(v))
    ensures (exists e :: e in v.events && HasX(e)) <==>
            (exists e :: e in v.events && Initial(e) && HasX(e)) || (exists e :: e in Timeline(v) && HasX(e))
  {
    TimelineIs(v);
    hide Timeline, FreeEdges, Numbered, ClocksOk, InClass;
    assert forall e :: HasX(e) || e.Glbl? || InRange(m, e) ==> Change(e);
  }

  /** The timeline has the events after initialisation, and edges of free clocks. */
  lemma TimelineIs(v: Vec)
    requires ClocksOk(v)
    ensures forall e | e in v.events && !Initial(e) :: e in Timeline(v)
    ensures forall e | e in Timeline(v) :: (e in v.events && !Initial(e)) || (e in FreeEdges(v) && e.Edge? && !e.sim)
    ensures forall e | e in FreeEdges(v) :: e.Edge? && DeclaredFree(v, e.clk)
    ensures SortedBy(Timeline(v), Time)
  {
    SortSorted(Later(v.events) + FreeEdges(v), Time);
    LaterHas(v.events);
    FreeEdgesAre(v);
    hide FreeEdges, ClocksOk, Later, Sort;
    var all := Later(v.events) + FreeEdges(v);
    forall e
      ensures e in Timeline(v) <==> e in all
    {
      assert e in multiset(all) <==> e in multiset(Timeline(v));
    }
  }

  lemma {:induction false} LaterHas(es: seq<Event>)
    ensures forall e :: e in Later(es) ==> e in es && !Initial(e)
    ensures forall e | e in es && !Initial(e) :: e in Later(es)
  {
    if es != [] {
      LaterHas(es[1..]);
      assert es == [es[0]] + es[1..];
    }
  }

  lemma FreeEdgesAre(v: Vec)
    requires ClocksOk(v)
    ensures forall e | e in FreeEdges(v) :: e.Edge? && !e.sim && DeclaredFree(v, e.clk)
  {
    RunClocks(v, v.clocks);
    var runs := FreeRuns(v);
    SortSorted(EdgesOf(v, runs), Time);
    RunEdgesAre(v, runs);
    forall e | e in FreeEdges(v)
      ensures e.Edge? && !e.sim && DeclaredFree(v, e.clk)
    {
      SortIn(EdgesOf(v, runs), e, Time);
    }
  }

  lemma {:induction false} RunEdgesAre(v: Vec, runs: seq<Span>)
    requires forall r | r in runs :: r.clock.period > 0 && r.clock in v.clocks && r in ClockRuns(v, r.clock)
    ensures forall e | e in EdgesOf(v, runs) :: e.Edge? && !e.sim && DeclaredFree(v, e.clk)
    decreases runs
  {
    if runs != [] {
      var r := runs[0];
      assert r in runs && r.clock.free;
      EdgesFromAre(r.clock, r.start, Limit(v, r));
      RunEdgesAre(v, runs[1..]);
    }
  }

  lemma {:induction false} EdgesFromAre(c: Clock, t: int, limit: int)
    requires c.period > 0
    ensures forall e | e in EdgesFrom(c, t, limit) :: e.Edge? && !e.sim && e.clk == c.index
    decreases limit - t
  {
    if t <= limit { EdgesFromAre(c, t + c.period, limit); }
  }

  method CheckInitial(v: Vec, m: DutMap, r: Report)
    requires Numbered(m)
    modifies r
    ensures r.errors == [] <==> old(r.errors) == [] && forall e | e in v.events && Initial(e) :: NoClockIn(m, e)
    ensures r.hw == [] <==> old(r.hw) == [] && forall e | e in v.events && Initial(e) :: !HasX(e)
    ensures r.xInputs <==> old(r.xInputs) || exists e :: e in v.events && Initial(e) && HasX(e)
  {
    hide Numbered, NoClockIn, HasX;
    var es := v.events;
    ghost var errors, hw, x := r.errors, r.hw, r.xInputs;
    for i := 0 to |es|
      invariant r.errors == [] <==> errors == [] && forall k :: 0 <= k < i && Initial(es[k]) ==> NoClockIn(m, es[k])
      invariant r.hw == [] <==> hw == [] && forall k :: 0 <= k < i && Initial(es[k]) ==> !HasX(es[k])
      invariant r.xInputs <==> x || exists k :: 0 <= k < i && Initial(es[k]) && HasX(es[k])
    {
      if Initial(es[i]) {
        if !NoClockIn(m, es[i]) { r.Error("clock bit", 0); }
        if HasX(es[i]) {
          r.Reason("x/z", 0);
          r.xInputs := true;
        }
      }
    }
    assert forall k :: 0 <= k < |es| ==> es[k] in es;
    assert forall e | e in es :: exists k :: 0 <= k < |es| && es[k] == e;
  }

  /** `validate`. A structure error ends the report (the rest of it would be about the well-formed part). */
  method Validate(v: Vec, m: DutMap) returns (r: Report)
    requires Numbered(m)
    ensures fresh(r)
    ensures r.errors == [] <==> ErrorFree(v, m)
    ensures r.HwRenderable() <==> ErrorFree(v, m) && Renderable(v, m)
    ensures r.errors == [] ==> (r.xInputs <==> exists e :: e in v.events && HasX(e))
  {
    hide Numbered, HeaderMatches, NoPads, GapsOk, StopsOk, ClearOfRelease, RejectOk, NoClockBits, SamplesApart, Alone, NoMixedSets, EdgesOk,
         AsyncApart, Timeline, TimelineOk, Quiet, Unsimultaneous, HasX, NoClockIn, SortedBy, StructureOk, ClocksOk, Ordered, EventOk, Declared,
         EdgeTimes, MinGap;
    r := new Report();
    if !StructureOk(v) {
      r.Error("structure", 0);
      return;
    }
    StructureParts(v);
    CheckHeader(v, m, r);
    if r.errors != [] && (v.header.nin != m.nin || v.header.nclk != m.nclk) { return; }
    var sep := Sep(v);
    if sep < MIN_SEP { r.Error("async_sep_ps", sep); }
    CheckMapHw(v, m, r);
    CheckEventGaps(v, MinGap(sep, m), r);
    CheckFreeStops(v, r);
    CheckInitial(v, m, r);
    TimelineIs(v);
    AllSets(v, m);
    var tl := Timeline(v);
    EdgeTimesAre(tl);
    var edges := EdgeTimes(tl);
    CheckGsrRelease(tl, sep, r);
    CheckReject(v, r);
    if !v.header.reject && !exists e :: e in v.events && e.Sample? { r.Error("no samples", 0); }
    TimelineDeclared(v);
    TimelineRules(v, m, tl, sep);
    CheckTimeline(v, m, tl, edges, sep, r);
  }

  lemma StructureParts(v: Vec)
    requires StructureOk(v)
    ensures ClocksOk(v) && Ordered(v.events)
  {}

  lemma TimelineDeclared(v: Vec)
    requires StructureOk(v)
    ensures ClocksOk(v) && forall e | e in Timeline(v) && e.Edge? :: Declared(v, e.clk)
  {
    TimelineIs(v);
    hide Timeline, FreeEdges;
    forall e | e in Timeline(v) && e.Edge?
      ensures Declared(v, e.clk)
    {
      if e in v.events { assert EventOk(v, e); }
    }
  }
}
