/** What a list of events emitted by `VecBuilder` satisfies, how one more event keeps it, and why
    the finished stimulus passes `validate`. */
module BuilderFacts {
  import opened Wrap
  import opened Sorting
  import opened Stimulus
  import opened Validation

  // ---- values ----------------------------------------------------------------------------------------

  /** A port value: a number, or the bits themselves. */
  datatype Value = Num(n: int) | Text(bits: seq<Logic>)

  function Pow2(n: nat): nat { if n == 0 then 1 else 2 * Pow2(n - 1) }

  /** `n` in binary, most significant bit first. */
  function Binary(n: nat, width: nat): (s: seq<Logic>)
    ensures |s| == width
  {
    if width == 0 then [] else Binary(n / 2, width - 1) + [if n % 2 == 1 then L1 else L0]
  }

  /** The number a string of 0s and 1s stands for. */
  function NumberOf(s: seq<Logic>): nat {
    if s == [] then 0 else 2 * NumberOf(s[..|s| - 1]) + if s[|s| - 1] == L1 then 1 else 0
  }

  lemma {:induction false} BinaryReadsBack(n: nat, width: nat)
    requires n < Pow2(width)
    ensures NumberOf(Binary(n, width)) == n
  {
    if width > 0 {
      BinaryReadsBack(n / 2, width - 1);
      var s := Binary(n, width);
      assert s[..|s| - 1] == Binary(n / 2, width - 1);
    }
  }

  lemma {:induction false} BinaryDefined(n: nat, width: nat)
    ensures forall x | x in Binary(n, width) :: x == L0 || x == L1
  {
    if width > 0 { BinaryDefined(n / 2, width - 1); }
  }

  /** The bits a value sets on `width` lines, or None when it does not fit. */
  function BitsOf(v: Value, width: nat): (r: Option<seq<Logic>>)
    ensures r.Some? ==> |r.value| == width
  {
    match v
    case Num(n) => if 0 <= n < Pow2(width) then Some(Binary(n, width)) else None
    case Text(bits) => if |bits| == width then Some(bits) else None
  }

  // ---- ports -----------------------------------------------------------------------------------------

  function InBits(m: DutMap, p: string): seq<Bit> { PortBits(m.bits, In, p, Plain) }

  function Lo(m: DutMap, p: string): int
    requires InBits(m, p) != []
  {
    InBits(m, p)[0].bit
  }

  function Hi(m: DutMap, p: string): int
    requires InBits(m, p) != []
  {
    InBits(m, p)[|InBits(m, p)| - 1].bit
  }

  /** The set covers exactly the bits of port `p`. */
  predicate SetOf(m: DutMap, p: string, e: Event) {
    InBits(m, p) != [] && e.Set? && e.lsb == Lo(m, p) && e.msb == Hi(m, p) && |e.value| == |InBits(m, p)|
  }

  predicate AsyncPort(m: DutMap, p: string) { ClsOf(m.bits, p) == Some(Async) || ClsOf(m.bits, p) == Some(Gate) }

  lemma SetOfPort(m: DutMap, p: string, e: Event)
    requires WellFormed(m) && SetOf(m, p, e)
    ensures InRange(m, e) && |e.value| == e.msb - e.lsb + 1
    ensures AsyncSet(m, e) <==> AsyncPort(m, p)
    ensures forall b :: e.lsb <= b <= e.msb ==> InClass(m, b) != ClockIn
  {
    PortRange(m, p);
    assert e.lsb <= e.lsb <= e.msb && InClass(m, e.lsb) == ClsOf(m.bits, p).value;
    assert AsyncPort(m, p) ==> AsyncBit(m, e.lsb);
  }

  lemma PortsDisjoint(m: DutMap, p: string, q: string, a: Event, b: Event)
    requires WellFormed(m) && SetOf(m, p, a) && SetOf(m, q, b) && p != q
    ensures !Overlap(a, b)
  {
    PortRange(m, p);
    PortRange(m, q);
    var x := Max(a.lsb, b.lsb);
    assert a.lsb <= x <= a.msb ==> Of(m.bits, In)[x].port == p;
    assert b.lsb <= x <= b.msb ==> Of(m.bits, In)[x].port == q;
  }

  // ---- emitted events --------------------------------------------------------------------------------

  /** The fixed parameters of a builder: its map, settle time and gap. */
  datatype Setup = Setup(m: DutMap, settle: int, gap: int)

  ghost predicate SetupOk(u: Setup) { WellFormed(u.m) && u.settle >= MIN_SETTLE && u.gap >= MIN_SEP }

  predicate StepClock(u: Setup, clk: int) { 0 <= clk < u.m.nclk }

  /** One event as the builder emits it. */
  ghost predicate Emitted(u: Setup, e: Event)
    requires SetupOk(u)
  {
    && (e.t >= u.settle || (Initial(e) && !e.sim))
    && match e
       case Set(_, sim, lsb, msb, _) =>
         (exists p :: SetOf(u.m, p, e)) && (sim || Initial(e) || Unmixed(u.m, e))
       case Edge(_, _, clk, _) => StepClock(u, clk)
       case Glbl(_, _, _, _) => true
       case Sample(_, sim, name) => !sim && IsLabel(name)
       case _ => false
  }

  /** Two events at one time, the first emitted first. */
  predicate Together(u: Setup, a: Event, b: Event)
    requires Numbered(u.m)
  {
    && a.sim == b.sim
    && (a.Set? && b.Set? ==> !Overlap(a, b))
    && (!a.sim ==> a.Set? && b.Set? && (!Initial(a) ==> !AsyncSet(u.m, a) && !AsyncSet(u.m, b)))
    && (a.sim ==> Change(a) && Change(b))
  }

  predicate PairOk(u: Setup, a: Event, b: Event)
    requires Numbered(u.m)
  {
    && a.t <= b.t
    && (a.t == b.t ==> Together(u, a, b))
    && (a.t < b.t ==> Initial(a) || b.t - a.t >= u.gap)
  }

  /** The events so far: each well formed, times in order, distinct times a gap apart, company only
      among plain data sets or marked changes, labels unique, edges alternating. */
  ghost predicate Stream(u: Setup, es: seq<Event>)
    requires SetupOk(u)
  {
    && (forall e | e in es :: Emitted(u, e))
    && AllPairs(u, es)
    && LabelsUnique(es)
    && (forall clk :: Alternates(es, clk, false))
  }

  // ---- one more event --------------------------------------------------------------------------------

  lemma {:induction false} AlternatesJoin(es: seq<Event>, e: Event, clk: int, level: bool)
    requires Alternates(es, clk, level)
    ensures Alternates(es + [e], clk, level) <==>
            (e.Edge? && e.clk == clk ==> e.rise != LevelAfter(es, clk, level))
  {
    if es == [] {
      assert (es + [e])[1..] == [];
    } else {
      assert (es + [e])[1..] == es[1..] + [e];
      AlternatesJoin(es[1..], e, clk, if es[0].Edge? && es[0].clk == clk then es[0].rise else level);
    }
  }

  lemma {:induction false} LevelJoin(es: seq<Event>, e: Event, clk: int, level: bool)
    ensures LevelAfter(es + [e], clk, level) == if e.Edge? && e.clk == clk then e.rise else LevelAfter(es, clk, level)
  {
    if es == [] {
      assert (es + [e])[1..] == [];
    } else {
      assert (es + [e])[1..] == es[1..] + [e];
      LevelJoin(es[1..], e, clk, if es[0].Edge? && es[0].clk == clk then es[0].rise else level);
    }
  }

  function Names(es: seq<Event>): set<string> { set i | 0 <= i < |es| && es[i].Sample? :: es[i].name }

  /** What an event needs to be appended. */
  ghost predicate Fits(u: Setup, es: seq<Event>, e: Event)
    requires SetupOk(u)
  {
    && Emitted(u, e)
    && (forall a | a in es :: PairOk(u, a, e))
    && (e.Sample? ==> e.name !in Names(es))
    && (e.Edge? ==> e.rise != LevelAfter(es, e.clk, false))
  }

  lemma AppendStream(u: Setup, es: seq<Event>, e: Event)
    requires SetupOk(u) && Stream(u, es) && Fits(u, es, e)
    ensures Stream(u, es + [e])
    ensures Names(es + [e]) == Names(es) + if e.Sample? then {e.name} else {}
  {
    var all := es + [e];
    forall i, j | 0 <= i < j < |all|
      ensures PairOk(u, all[i], all[j])
      ensures all[i].Sample? && all[j].Sample? ==> all[i].name != all[j].name
    {
      if j == |es| {
        assert all[i] in es;
        assert es[i].Sample? ==> es[i].name in Names(es);
      }
    }
    forall clk
      ensures Alternates(all, clk, false)
    {
      AlternatesJoin(es, e, clk, false);
    }
    forall n
      ensures n in Names(all) <==> n in Names(es) + if e.Sample? then {e.name} else {}
    {
      if n in Names(es) {
        var i :| 0 <= i < |es| && es[i].Sample? && es[i].name == n;
        assert all[i].Sample? && all[i].name == n;
      }
      if e.Sample? && n == e.name {
        assert all[|es|].Sample? && all[|es|].name == n;
      }
      if n in Names(all) {
        var i :| 0 <= i < |all| && all[i].Sample? && all[i].name == n;
        if i < |es| { assert es[i].name in Names(es); }
      }
    }
  }

  /** A later event at a new time a gap away fits beside everything before it. */
  lemma NewTimeFits(u: Setup, es: seq<Event>, e: Event)
    requires SetupOk(u) && Stream(u, es)
    requires es != [] ==> e.t > es[|es| - 1].t && (Initial(es[|es| - 1]) || e.t >= es[|es| - 1].t + u.gap)
    ensures forall a | a in es :: PairOk(u, a, e)
  {
    forall a | a in es
      ensures PairOk(u, a, e)
    {
      var i :| 0 <= i < |es| && es[i] == a;
      var last := es[|es| - 1];
      if i < |es| - 1 {
        assert PairOk(u, es[i], last);
        assert Emitted(u, a) && Emitted(u, last);
      }
    }
  }

  /** The time of the next event: not closer than a gap to the last one unless it is the same time. */
  function NewTime(es: seq<Event>, t: int, gap: int): int {
    if es != [] && es[|es| - 1].t < t < es[|es| - 1].t + gap then es[|es| - 1].t + gap else t
  }

  /** The last event is a data set that other data sets may join. */
  predicate Joinable(u: Setup, es: seq<Event>)
    requires Numbered(u.m)
  {
    es != [] && var e := es[|es| - 1]; e.Set? && !e.sim && !Initial(e) && !AsyncSet(u.m, e)
  }

  /** A data set may join the data sets already at its time when it overlaps none of them. */
  lemma JoinFits(u: Setup, es: seq<Event>, e: Event)
    requires SetupOk(u) && Stream(u, es) && Joinable(u, es)
    requires e.Set? && !e.sim && e.t == es[|es| - 1].t && !AsyncSet(u.m, e)
    requires forall a | a in es && a.Set? && a.t == e.t :: !Overlap(a, e)
    ensures forall a | a in es :: PairOk(u, a, e)
  {
    var last := es[|es| - 1];
    forall a | a in es
      ensures PairOk(u, a, e)
    {
      var i :| 0 <= i < |es| && es[i] == a;
      if i < |es| - 1 { assert PairOk(u, es[i], last); }
    }
  }

  /** Initial sets at time 0 on different ports. */
  lemma InitialFits(u: Setup, es: seq<Event>, e: Event)
    requires SetupOk(u) && Stream(u, es) && forall a | a in es :: Initial(a)
    requires Initial(e) && !e.sim
    requires forall a | a in es && a.Set? && a.t == e.t :: !Overlap(a, e)
    ensures forall a | a in es :: PairOk(u, a, e)
  {
    forall a | a in es
      ensures PairOk(u, a, e)
    {
      assert Emitted(u, a);
    }
  }

  /** The open group of a simultaneous block: the last `n` events, all marked, at a new time `t`. */
  predicate GroupAt(es: seq<Event>, n: nat, t: int) {
    && n <= |es|
    && (forall i :: |es| - n <= i < |es| ==> es[i].t == t && es[i].sim && Change(es[i]))
    && (forall i :: 0 <= i < |es| - n ==> es[i].t < t)
  }

  /** A marked change joins the open group. */
  lemma GroupFits(u: Setup, es: seq<Event>, n: nat, e: Event)
    requires SetupOk(u) && Stream(u, es) && n > 0 && GroupAt(es, n, e.t) && e.sim && Change(e)
    requires e.Set? ==> forall a | a in es && a.Set? && a.t == e.t :: !Overlap(a, e)
    ensures forall a | a in es :: PairOk(u, a, e)
  {
    var last := es[|es| - 1];
    forall a | a in es
      ensures PairOk(u, a, e)
    {
      var i :| 0 <= i < |es| && es[i] == a;
      if i < |es| - n { assert PairOk(u, es[i], last); }
    }
  }

  // ---- the finished stimulus -------------------------------------------------------------------------

  /** Every marked event has company. */
  predicate Companions(es: seq<Event>) {
    forall i :: 0 <= i < |es| && es[i].sim ==> exists j :: 0 <= j < |es| && j != i && es[j].t == es[i].t
  }

  function StepClocks(m: DutMap, period: int, k: nat): seq<Clock>
    requires k <= m.nclk
  {
    seq(k, i requires 0 <= i < k => Clock(i, period, 0, 50, false))
  }

  /** What `build` adds to the events. */
  ghost predicate Built(u: Setup, v: Vec, es: seq<Event>, period: int, sep: int, end: int)
    requires SetupOk(u)
  {
    && v.events == es + [End(end, false)]
    && v.clocks == StepClocks(u.m, period, u.m.nclk)
    && v.header.nin == u.m.nin && v.header.nout == u.m.nout && v.header.nclk == u.m.nclk
    && v.header.prim == u.m.prim && v.header.cfg == u.m.cfg && v.header.attrs == u.m.attrs
    && v.header.settle == u.settle && v.header.sep == Some(sep)
    && Stream(u, es) && Companions(es)
    && end >= u.settle
    && (es != [] ==> end > es[|es| - 1].t && (Initial(es[|es| - 1]) || end >= es[|es| - 1].t + u.gap))
    && MIN_SEP <= sep <= u.gap && MinGap(sep, u.m) <= u.gap && period > 0
  }

  lemma {:induction false} LaterIs(es: seq<Event>)
    ensures forall e :: e in Later(es) <==> e in es && !Initial(e)
    ensures SortedBy(es, Time) ==> SortedBy(Later(es), Time)
  {
    if es != [] {
      LaterIs(es[1..]);
      assert es == [es[0]] + es[1..];
      if SortedBy(es, Time) {
        forall e | e in Later(es[1..])
          ensures es[0].t <= e.t
        {
          var i :| 0 <= i < |es[1..]| && es[1..][i] == e;
          assert es[i + 1] == e && Time(es[0]) <= Time(es[i + 1]);
        }
        assert SortedBy(es[1..], Time);
      }
    }
  }

  lemma {:induction false} SortOfSorted(es: seq<Event>)
    requires SortedBy(es, Time)
    ensures Sort(es, Time) == es
  {
    if es != [] {
      assert SortedBy(es[1..], Time);
      SortOfSorted(es[1..]);
      assert |es| > 1 ==> Time(es[0]) <= Time(es[1]);
    }
  }

  lemma {:induction false} NoFreeRuns(v: Vec, cs: seq<Clock>)
    requires forall c | c in cs :: !c.free
    ensures RunsOf(v, cs) == []
  {
    if cs != [] {
      assert cs[0] in cs;
      NoFreeRuns(v, cs[1..]);
    }
  }

  lemma BuiltPairs(u: Setup, v: Vec, es: seq<Event>, period: int, sep: int, end: int)
    requires SetupOk(u) && Built(u, v, es, period, sep, end)
    ensures AllPairs(u, v.events)
    ensures forall i :: 0 <= i < |es| ==> es[i].t < end
  {
    forall i | 0 <= i < |es|
      ensures PairOk(u, es[i], End(end, false)) && es[i].t < end
    {
      if i < |es| - 1 {
        assert PairOk(u, es[i], es[|es| - 1]);
        assert es[|es| - 1] in es && es[i] in es;
        assert Emitted(u, es[i]) && Emitted(u, es[|es| - 1]);
      }
    }
    forall i, j | 0 <= i < j < |v.events|
      ensures PairOk(u, v.events[i], v.events[j])
    {
      if j < |es| { assert PairOk(u, es[i], es[j]); }
    }
  }

  /** Without free clocks the timeline is the events after initialisation, as emitted. */
  lemma BuiltTimeline(u: Setup, v: Vec, es: seq<Event>, period: int, sep: int, end: int)
    requires SetupOk(u) && Built(u, v, es, period, sep, end)
    ensures ClocksOk(v) && FreeRuns(v) == [] && Timeline(v) == Later(v.events)
  {
    NoFreeRuns(v, v.clocks);
    BuiltSorted(u, v, es, period, sep, end);
    hide Built, SetupOk, RunsOf, Sort;
    SortOfNone();
    LaterIs(v.events);
    SortOfSorted(Later(v.events));
    assert Later(v.events) + [] == Later(v.events);
  }

  lemma SortOfNone()
    ensures Sort([], Time) == []
  {}

  lemma BuiltSorted(u: Setup, v: Vec, es: seq<Event>, period: int, sep: int, end: int)
    requires SetupOk(u) && Built(u, v, es, period, sep, end)
    ensures SortedBy(v.events, Time) && ClocksOk(v)
  {
    BuiltPairs(u, v, es, period, sep, end);
    forall i, j | 0 <= i < j < |v.events|
      ensures Time(v.events[i]) <= Time(v.events[j])
    {
      assert PairOk(u, v.events[i], v.events[j]);
    }
  }

  lemma BuiltStructure(u: Setup, v: Vec, es: seq<Event>, period: int, sep: int, end: int)
    requires SetupOk(u) && Built(u, v, es, period, sep, end)
    ensures StructureOk(v) <==> v.header.seed >= 0
  {
    forall e | e in v.events
      ensures EventOk(v, e)
    {
      if e in es {
        assert Emitted(u, e);
        if e.Set? {
          var p :| SetOf(u.m, p, e);
          SetOfPort(u.m, p, e);
        } else if e.Edge? {
          assert v.clocks[e.clk].index == e.clk && v.clocks[e.clk] in v.clocks;
        }
      } else {
        assert e == End(end, false);
      }
    }
    assert Ordered(v.events) by {
      BuiltSorted(u, v, es, period, sep, end);
      forall i, j | 0 <= i < j < |v.events|
        ensures v.events[i].t <= v.events[j].t
      {
        assert Time(v.events[i]) <= Time(v.events[j]);
      }
      forall i | 0 <= i < |v.events| - 1
        ensures !v.events[i].End?
      {
        assert v.events[i] in es && Emitted(u, es[i]);
      }
    }
    BuiltCotimed(u, v, es, period, sep, end);
  }

  lemma BuiltCotimed(u: Setup, v: Vec, es: seq<Event>, period: int, sep: int, end: int)
    requires SetupOk(u) && Built(u, v, es, period, sep, end)
    ensures Cotimed(v.events)
  {
    var all := v.events;
    BuiltPairs(u, v, es, period, sep, end);
    forall i, j | 0 <= i < j < |all| && all[i].t == all[j].t
      ensures all[i].sim == all[j].sim
      ensures if AllSetsAt(all, all[i].t) then all[i].Set? && all[j].Set? && !Overlap(all[i], all[j]) else all[i].sim
    {
      assert PairOk(u, all[i], all[j]);
      assert all[i] in all && all[j] in all;
      if !all[i].sim {
        forall x | x in all && x.t == all[i].t
          ensures x.Set?
        {
          var k :| 0 <= k < |all| && all[k] == x;
          assert k != i ==> PairOk(u, all[if k < i then k else i], all[if k < i then i else k]);
        }
      }
    }
    forall i | 0 <= i < |all| && all[i].sim
      ensures exists j :: 0 <= j < |all| && j != i && all[j].t == all[i].t
    {
      assert es[i].sim;
      var j :| 0 <= j < |es| && j != i && es[j].t == es[i].t;
      assert all[j].t == all[i].t;
    }
  }

  // ---- class rules on the timeline -------------------------------------------------------------------

  predicate AllPairs(u: Setup, es: seq<Event>)
    requires Numbered(u.m)
  {
    forall i, j :: 0 <= i < j < |es| ==> PairOk(u, es[i], es[j])
  }

  lemma ConsPairs(u: Setup, e: Event, es: seq<Event>)
    requires Numbered(u.m) && AllPairs(u, es) && forall x | x in es :: PairOk(u, e, x)
    ensures AllPairs(u, [e] + es)
  {
    hide PairOk;
    var all := [e] + es;
    forall i, j | 0 <= i < j < |all|
      ensures PairOk(u, all[i], all[j])
    {
      assert all[j] == es[j - 1];
      assert i > 0 ==> PairOk(u, es[i - 1], es[j - 1]);
    }
  }

  lemma {:induction false} LaterPairwise(u: Setup, es: seq<Event>)
    requires Numbered(u.m) && AllPairs(u, es)
    ensures AllPairs(u, Later(es))
  {
    hide PairOk, Initial;
    if es != [] {
      var rest := Later(es[1..]);
      assert AllPairs(u, es[1..]) by {
        forall i, j | 0 <= i < j < |es[1..]|
          ensures PairOk(u, es[1..][i], es[1..][j])
        {
          assert PairOk(u, es[i + 1], es[j + 1]);
        }
      }
      LaterPairwise(u, es[1..]);
      if Initial(es[0]) {
        assert Later(es) == rest;
      } else {
        LaterIs(es[1..]);
        forall x | x in rest
          ensures PairOk(u, es[0], x)
        {
          var k :| 0 <= k < |es[1..]| && es[1..][k] == x;
          assert PairOk(u, es[0], es[k + 1]);
        }
        ConsPairs(u, es[0], rest);
      }
    }
  }

  /** A pair of the timeline, in either order. */
  predicate Beside(u: Setup, a: Event, b: Event)
    requires Numbered(u.m)
  {
    && (a.t == b.t ==> Together(u, a, b) || Together(u, b, a))
    && (a.t != b.t ==> Abs(a.t - b.t) >= u.gap)
    && !Initial(a) && !Initial(b)
  }

  lemma BuiltBeside(u: Setup, v: Vec, es: seq<Event>, period: int, sep: int, end: int)
    requires SetupOk(u) && Built(u, v, es, period, sep, end)
    ensures var tl := Later(v.events);
            && (forall i, j :: 0 <= i < |tl| && 0 <= j < |tl| && i != j ==> Beside(u, tl[i], tl[j]))
            && (forall e | e in tl :: !Initial(e) && (e == End(end, false) || (e in es && Emitted(u, e))))
  {
    var tl := Later(v.events);
    BuiltPairs(u, v, es, period, sep, end);
    LaterPairwise(u, v.events);
    LaterIs(v.events);
    BesidePairs(u, tl);
  }

  lemma BesidePairs(u: Setup, tl: seq<Event>)
    requires Numbered(u.m) && AllPairs(u, tl) && forall e | e in tl :: !Initial(e)
    ensures forall i, j :: 0 <= i < |tl| && 0 <= j < |tl| && i != j ==> Beside(u, tl[i], tl[j])
  {
    hide Together, Initial;
    forall i, j | 0 <= i < |tl| && 0 <= j < |tl| && i != j
      ensures Beside(u, tl[i], tl[j])
    {
      assert tl[i] in tl && tl[j] in tl;
      assert PairOk(u, tl[if i < j then i else j], tl[if i < j then j else i]);
    }
  }

  lemma {:induction false} LaterAlternates(es: seq<Event>, clk: int, level: bool)
    ensures Alternates(Later(es), clk, level) <==> Alternates(es, clk, level)
  {
    if es != [] {
      if Initial(es[0]) {
        assert Later(es) == Later(es[1..]);
        LaterAlternates(es[1..], clk, level);
      } else {
        assert Later(es)[1..] == Later(es[1..]);
        LaterAlternates(es[1..], clk, if es[0].Edge? && es[0].clk == clk then es[0].rise else level);
      }
    }
  }

  /** The rules that hold of every timeline of which all pairs are fine. */
  lemma ClassRules(u: Setup, tl: seq<Event>, sep: int)
    requires SetupOk(u) && MIN_SEP <= sep <= u.gap
    requires forall i, j :: 0 <= i < |tl| && 0 <= j < |tl| && i != j ==> Beside(u, tl[i], tl[j])
    requires forall e | e in tl :: !Initial(e) && (e.End? || Emitted(u, e))
    ensures SamplesApart(tl) && Alone(tl, u.m) && NoMixedSets(tl, u.m) && AsyncApart(tl, u.m, sep)
  {
    hide SetupOk, Stream;
    SampleRule(u, tl);
    MarkedRule(u, tl);
    SeparationRule(u, tl, sep);
  }

  lemma SampleRule(u: Setup, tl: seq<Event>)
    requires SetupOk(u)
    requires forall i, j :: 0 <= i < |tl| && 0 <= j < |tl| && i != j ==> Beside(u, tl[i], tl[j])
    requires forall e | e in tl :: !Initial(e) && (e.End? || Emitted(u, e))
    ensures SamplesApart(tl)
  {
    forall a, b | a in tl && b in tl && a.Sample? && Change(b)
      ensures a.t != b.t && (b.t < a.t ==> a.t - b.t >= MIN_SEP)
    {
      var i :| 0 <= i < |tl| && tl[i] == a;
      var j :| 0 <= j < |tl| && tl[j] == b;
      assert Beside(u, tl[i], tl[j]);
    }
  }

  lemma MarkedRule(u: Setup, tl: seq<Event>)
    requires SetupOk(u)
    requires forall i, j :: 0 <= i < |tl| && 0 <= j < |tl| && i != j ==> Beside(u, tl[i], tl[j])
    requires forall e | e in tl :: !Initial(e) && (e.End? || Emitted(u, e))
    ensures Alone(tl, u.m) && NoMixedSets(tl, u.m)
  {
    forall e | e in tl && e.sim
      ensures AllMarked(tl, e.t)
    {
      var i :| 0 <= i < |tl| && tl[i] == e;
      forall x | x in tl && x.t == e.t && Change(x)
        ensures x.sim
      {
        var j :| 0 <= j < |tl| && tl[j] == x;
        assert i != j ==> Beside(u, tl[i], tl[j]);
      }
    }
    forall i, j | 0 <= i < |tl| && 0 <= j < |tl| && i != j && tl[i].t == tl[j].t && Change(tl[i]) && Change(tl[j])
      ensures !AllMarked(tl, tl[i].t) ==> !Lonely(u.m, tl[i])
    {
      assert Beside(u, tl[i], tl[j]);
      assert tl[i] in tl;
    }
  }

  lemma SeparationRule(u: Setup, tl: seq<Event>, sep: int)
    requires SetupOk(u) && MIN_SEP <= sep <= u.gap
    requires forall i, j :: 0 <= i < |tl| && 0 <= j < |tl| && i != j ==> Beside(u, tl[i], tl[j])
    ensures AsyncApart(tl, u.m, sep)
  {
    forall a, b | a in tl && b in tl && Separated(u.m, a) && b.Edge?
      ensures Abs(a.t - b.t) >= sep
    {
      var i :| 0 <= i < |tl| && tl[i] == a;
      var j :| 0 <= j < |tl| && tl[j] == b;
      assert Beside(u, tl[i], tl[j]);
    }
  }

  /** The guard a caller can check: a seed and a reject declaration that the header can carry, a
      sample unless a rejection is expected, and every event after initialisation clear of the
      release of GSR. */
  predicate Guard(v: Vec) {
    && v.header.seed >= 0
    && RejectOk(v.header)
    && Sampled(v)
    && forall e | e in v.events && !Initial(e) :: e.t >= ROC_WIDTH + Sep(v)
  }

  /** Valid by construction, exactly: a finished stimulus has no error if and only if it meets the guard. */
  lemma BuiltErrorFree(u: Setup, v: Vec, es: seq<Event>, period: int, sep: int, end: int)
    requires SetupOk(u) && Built(u, v, es, period, sep, end)
    ensures ErrorFree(v, u.m) <==> Guard(v)
  {
    BuiltStructure(u, v, es, period, sep, end);
    BuiltTimeline(u, v, es, period, sep, end);
    BuiltBeside(u, v, es, period, sep, end);
    ClassRules(u, Later(v.events), sep);
    BuiltBits(u, v, es, period, sep, end);
    BuiltEdges(u, v, es, period, sep, end);
    BuiltRelease(u, v, es, period, sep, end);
    hide StructureOk, SamplesApart, Alone, NoMixedSets, AsyncApart, NoClockBits, EdgesOk, ClearOfRelease, Later, Stream, Companions;
  }

  lemma BuiltBits(u: Setup, v: Vec, es: seq<Event>, period: int, sep: int, end: int)
    requires SetupOk(u) && Built(u, v, es, period, sep, end)
    ensures NoClockBits(v.events, u.m)
  {
    forall e | e in v.events && InRange(u.m, e)
      ensures forall b :: e.lsb <= b <= e.msb ==> InClass(u.m, b) != ClockIn
    {
      assert e in es && Emitted(u, e);
      var p :| SetOf(u.m, p, e);
      SetOfPort(u.m, p, e);
    }
  }

  lemma BuiltEdges(u: Setup, v: Vec, es: seq<Event>, period: int, sep: int, end: int)
    requires SetupOk(u) && Built(u, v, es, period, sep, end)
    ensures ClocksOk(v) && EdgesOk(v, Later(v.events))
  {
    BuiltSorted(u, v, es, period, sep, end);
    forall c | c in v.clocks && !c.free
      ensures Alternates(Later(v.events), c.index, false)
    {
      AlternatesJoin(es, End(end, false), c.index, false);
      LaterAlternates(v.events, c.index, false);
    }
  }

  lemma BuiltRelease(u: Setup, v: Vec, es: seq<Event>, period: int, sep: int, end: int)
    requires SetupOk(u) && Built(u, v, es, period, sep, end)
    ensures ClearOfRelease(Later(v.events), sep) <==> forall e | e in v.events && !Initial(e) :: e.t >= ROC_WIDTH + sep
  {
    var tl := Later(v.events);
    LaterIs(v.events);
    forall e | e in tl
      ensures Abs(e.t - ROC_WIDTH) >= sep <==> e.t >= ROC_WIDTH + sep
    {
      if e in es { assert Emitted(u, e); }
    }
  }

  lemma BuiltGaps(u: Setup, v: Vec, es: seq<Event>, period: int, sep: int, end: int)
    requires SetupOk(u) && Built(u, v, es, period, sep, end)
    ensures GapsOk(v.events, MinGap(sep, u.m))
  {
    BuiltPairs(u, v, es, period, sep, end);
    hide Stream, Companions, Together, Initial;
    forall a, b | a in v.events && b in v.events && !Initial(a) && !Initial(b) && a.t < b.t
      ensures b.t - a.t >= MinGap(sep, u.m)
    {
      var i :| 0 <= i < |v.events| && v.events[i] == a;
      var j :| 0 <= j < |v.events| && v.events[j] == b;
      assert i != j ==> PairOk(u, v.events[if i < j then i else j], v.events[if i < j then j else i]);
    }
  }

  /** Hardware renderability, exactly: no pad or inout bit, nothing marked, no glbl change, no x or z. */
  lemma BuiltRenderable(u: Setup, v: Vec, es: seq<Event>, period: int, sep: int, end: int)
    requires SetupOk(u) && Built(u, v, es, period, sep, end)
    ensures Renderable(v, u.m) <==>
            NoPads(u.m) && forall e | e in es :: !e.sim && !e.Glbl? && !HasX(e)
  {
    BuiltGaps(u, v, es, period, sep, end);
    hide GapsOk, Stream, Companions, NoPads;
    forall e | e in es
      ensures e in v.events && (Initial(e) ==> !e.sim)
    {
      StreamEmits(u, es, e);
    }
    assert v.events[|es|] == End(end, false);
    forall e | e in v.events
      ensures e in es || e == End(end, false)
    {}
  }

  lemma StreamEmits(u: Setup, es: seq<Event>, e: Event)
    requires SetupOk(u) && Stream(u, es) && e in es
    ensures Emitted(u, e)
  {}
}
