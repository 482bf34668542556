/** Compilation preserves meaning: the testbench, running the compiled words, shows the device exactly
    the history that golden replay predicts, if and only if the free clocks are orderly. */
module SameMeaning {
  import opened Wrap
  import opened Sorting
  import opened Stimulus
  import opened Validation
  import opened Words
  import opened Compile
  import opened Generators
  import opened Schedule
  import opened Timesteps
  import opened Execution
  import opened StepExecution
  import T = Testbench
  import G = Golden

  // ---- edges of the generators -----------------------------------------------------------------------

  /** The edges of clock `k` in a history. */
  function OfClock(log: seq<T.Obs>, k: int): seq<T.Obs> {
    if log == [] then [] else (if log[0].Clocked? && log[0].clk == k then [log[0]] else []) + OfClock(log[1..], k)
  }

  lemma {:induction false} OfClockJoin(a: seq<T.Obs>, b: seq<T.Obs>, k: int)
    ensures OfClock(a + b, k) == OfClock(a, k) + OfClock(b, k)
  {
    if a == [] {
      assert a + b == b;
    } else {
      assert (a + b)[1..] == a[1..] + b && (a + b)[0] == a[0];
      OfClockJoin(a[1..], b, k);
      var h, x, y := if a[0].Clocked? && a[0].clk == k then [a[0]] else [], OfClock(a[1..], k), OfClock(b, k);
      assert h + (x + y) == h + x + y;
    }
  }

  lemma OfClockOne(o: T.Obs, k: int)
    ensures OfClock([o], k) == if o.Clocked? && o.clk == k then [o] else []
  {
    assert [o][1..] == [];
  }

  /** The edges of one generator at one time, as the testbench shows them. */
  function Shows(k: int, t: int, flips: seq<bool>): seq<T.Obs> {
    if flips == [] then [] else [T.Clocked(t, k, flips[0])] + Shows(k, t, flips[1..])
  }

  lemma ShowsOpt(k: nat, t: int, g: T.Gen)
    ensures T.FlipOf(false, g, k, t) == Shows(k, t, Opt(T.Act(g, t).1))
  {
    var x := T.Act(g, t).1;
    if x.Some? { assert [x.value][1..] == []; }
  }

  lemma {:induction false} ShowsJoin(k: int, t: int, a: seq<bool>, b: seq<bool>)
    ensures Shows(k, t, a + b) == Shows(k, t, a) + Shows(k, t, b)
  {
    if a == [] {
      assert a + b == b;
    } else {
      assert (a + b)[1..] == a[1..] + b && (a + b)[0] == a[0];
      ShowsJoin(k, t, a[1..], b);
      assert [T.Clocked(t, k, a[0])] + (Shows(k, t, a[1..]) + Shows(k, t, b))
             == [T.Clocked(t, k, a[0])] + Shows(k, t, a[1..]) + Shows(k, t, b);
    }
  }

  lemma OfClockNothing(k: int)
    ensures OfClock([], k) == []
  {}

  lemma OfClockFlip(step: bool, g: T.Gen, j: nat, t: int, k: int)
    ensures var one := T.FlipOf(step, g, j, t);
            && OfClock(one, k) == (if j == k then one else [])
            && OfClock(one, k) + [] == OfClock(one, k) && one + [] == one
  {
    var one := T.FlipOf(step, g, j, t);
    if one != [] { OfClockOne(one[0], k); }
  }

  lemma {:induction false} OfClockFlips(tb: T.Tb, j: nat, t: int, who: set<int>, k: nat)
    requires |tb.step| == |tb.gens| && k < |tb.gens|
    ensures OfClock(T.Flips(tb, j, t, who), k) == if j <= k && k in who then T.FlipOf(tb.step[k], tb.gens[k], k, t) else []
    decreases |tb.gens| - j
  {
    hide OfClock, T.FlipOf;
    OfClockNothing(k);
    if j < |tb.gens| {
      OfClockFlips(tb, j + 1, t, who, k);
      OfClockJoin(if j in who then T.FlipOf(tb.step[j], tb.gens[j], j, t) else [], T.Flips(tb, j + 1, t, who), k);
      OfClockFlip(tb.step[j], tb.gens[j], j, t, k);
    }
  }

  lemma {:induction false} NoFlips(tb: T.Tb, j: nat, t: int, who: set<int>)
    requires |tb.step| == |tb.gens|
    requires forall k: nat | j <= k < |tb.gens| && k in who :: T.FlipOf(tb.step[k], tb.gens[k], k, t) == []
    ensures T.Flips(tb, j, t, who) == []
    decreases |tb.gens| - j
  {
    if j < |tb.gens| { NoFlips(tb, j + 1, t, who); }
  }

  lemma {:induction false} OneFlip(tb: T.Tb, j: nat, t: int, who: set<int>, k: nat)
    requires |tb.step| == |tb.gens| && j <= k < |tb.gens|
    requires forall i: nat | j <= i < |tb.gens| && i != k && i in who :: T.FlipOf(tb.step[i], tb.gens[i], i, t) == []
    ensures T.Flips(tb, j, t, who) == if k in who then T.FlipOf(tb.step[k], tb.gens[k], k, t) else []
    decreases |tb.gens| - j
  {
    hide T.FlipOf;
    var one := if j in who then T.FlipOf(tb.step[j], tb.gens[j], j, t) else [];
    if j == k {
      NoFlips(tb, j + 1, t, who);
      assert one + [] == one;
    } else {
      OneFlip(tb, j + 1, t, who, k);
      assert [] + T.Flips(tb, j + 1, t, who) == T.Flips(tb, j + 1, t, who);
    }
  }

  // ---- edges of the runs -----------------------------------------------------------------------------

  /** When there is at most one free-clock edge at a time, it is that of one clock. */
  lemma {:induction false} OneGold(v: Vec, cs: seq<Clock>, t: int)
    requires (forall c | c in cs :: c.period > 0) && |GoldAll(v, cs, t)| <= 1
    ensures GoldAll(v, cs, t) == [] ==> forall c | c in cs && c.free :: Gold(v, c, t) == []
    ensures GoldAll(v, cs, t) != [] ==>
            exists k :: 0 <= k < |cs| && cs[k].free && Gold(v, cs[k], t) == GoldAll(v, cs, t)
                        && forall i :: 0 <= i < |cs| && i != k && cs[i].free ==> Gold(v, cs[i], t) == []
    decreases cs
  {
    hide Gold;
    if cs != [] {
      var head, rest := if cs[0].free then Gold(v, cs[0], t) else [], GoldAll(v, cs[1..], t);
      assert cs == [cs[0]] + cs[1..];
      OneGold(v, cs[1..], t);
      if head != [] {
        assert rest == [];
        assert head + [] == head;
        assert cs[0].free && Gold(v, cs[0], t) == GoldAll(v, cs, t);
        forall i | 0 <= i < |cs| && i != 0 && cs[i].free
          ensures Gold(v, cs[i], t) == []
        {
          assert cs[i] == cs[1..][i - 1];
        }
      } else if rest != [] {
        assert [] + rest == rest;
        var k :| 0 <= k < |cs[1..]| && cs[1..][k].free && Gold(v, cs[1..][k], t) == rest
                 && forall i :: 0 <= i < |cs[1..]| && i != k && cs[1..][i].free ==> Gold(v, cs[1..][i], t) == [];
        forall i | 0 <= i < |cs| && i != k + 1 && cs[i].free
          ensures Gold(v, cs[i], t) == []
        {
          assert i > 0 ==> cs[i] == cs[1..][i - 1];
        }
        assert cs[k + 1] == cs[1..][k];
      }
    }
  }

  lemma {:induction false} ShownJoin(a: seq<Event>, b: seq<Event>)
    ensures G.ShownAll(a + b) == G.ShownAll(a) + G.ShownAll(b)
    decreases a
  {
    hide G.Shown;
    if a == [] {
      assert a + b == b;
    } else {
      assert (a + b)[1..] == a[1..] + b && (a + b)[0] == a[0];
      ShownJoin(a[1..], b);
      assert G.Shown(a[0]) + (G.ShownAll(a[1..]) + G.ShownAll(b)) == G.Shown(a[0]) + G.ShownAll(a[1..]) + G.ShownAll(b);
    }
  }

  /** Edges of one clock at one time show alike exactly when they are alike. */
  lemma {:induction false} ShownGold(c: Clock, t: int, gold: seq<Event>, flips: seq<bool>)
    requires forall e | e in gold :: e.Edge? && e == Edge(t, false, c.index, e.rise)
    ensures G.ShownAll(gold) == Shows(c.index, t, flips) <==> gold == Shown(c, t, flips)
    decreases gold
  {
    if gold != [] {
      assert gold[0] in gold;
      var s := G.ShownAll(gold);
      assert s == [T.Clocked(t, c.index, gold[0].rise)] + G.ShownAll(gold[1..]);
      if flips != [] {
        ShownGold(c, t, gold[1..], flips[1..]);
        assert s[1..] == G.ShownAll(gold[1..]) && s[0] == T.Clocked(t, c.index, gold[0].rise);
        var w := Shows(c.index, t, flips);
        assert w[1..] == Shows(c.index, t, flips[1..]) && w[0] == T.Clocked(t, c.index, flips[0]);
        var x := Shown(c, t, flips);
        assert x[1..] == Shown(c, t, flips[1..]) && x[0] == Edge(t, false, c.index, flips[0]);
        assert gold == [gold[0]] + gold[1..];
      }
    }
  }

  lemma {:induction false} GoldForm(v: Vec, c: Clock, t: int)
    requires c.period > 0
    ensures forall e | e in Gold(v, c, t) :: e.Edge? && e == Edge(t, false, c.index, e.rise)
  {
    RunsPeriods(v, c);
    RunEdgesOf(v, ClockRuns(v, c), c);
    WithIn(EdgesOf(v, ClockRuns(v, c)), t, Time);
  }

  lemma {:induction false} OfClockGold(c: Clock, t: int, gold: seq<Event>, k: int)
    requires forall e | e in gold :: e.Edge? && e == Edge(t, false, c.index, e.rise)
    ensures OfClock(G.ShownAll(gold), k) == if c.index == k then G.ShownAll(gold) else []
    decreases gold
  {
    if gold != [] {
      assert gold[0] in gold;
      OfClockGold(c, t, gold[1..], k);
      var one := T.Clocked(t, c.index, gold[0].rise);
      OfClockJoin([one], G.ShownAll(gold[1..]), k);
      OfClockOne(one, k);
    }
  }

  lemma {:induction false} OfClockGolds(v: Vec, cs: seq<Clock>, t: int, c: Clock)
    requires (forall d | d in cs :: d.period > 0) && c.period > 0 && c.free
    requires forall i, j :: 0 <= i < j < |cs| ==> cs[i].index != cs[j].index
    requires forall d | d in cs && d.index == c.index :: d == c
    ensures OfClock(G.ShownAll(GoldAll(v, cs, t)), c.index) == if c in cs then G.ShownAll(Gold(v, c, t)) else []
    decreases cs
  {
    hide Gold;
    if cs != [] {
      var head := if cs[0].free then Gold(v, cs[0], t) else [];
      OfClockGolds(v, cs[1..], t, c);
      ShownJoin(head, GoldAll(v, cs[1..], t));
      OfClockJoin(G.ShownAll(head), G.ShownAll(GoldAll(v, cs[1..], t)), c.index);
      if cs[0].free {
        GoldForm(v, cs[0], t);
        OfClockGold(cs[0], t, head, c.index);
      }
      assert cs[0] in cs;
      if cs[0] == c {
        forall d | d in cs[1..]
          ensures d != c
        {
          var i :| 0 <= i < |cs[1..]| && cs[1..][i] == d;
          assert cs[0].index != cs[i + 1].index;
        }
        var x := G.ShownAll(Gold(v, c, t));
        assert x + [] == x;
      } else {
        var x := OfClock(G.ShownAll(GoldAll(v, cs[1..], t)), c.index);
        assert [] + x == x;
      }
    }
  }

  // ---- the testbench before the time step `t` --------------------------------------------------------

  function GenOf(v: Vec, k: nat, t: nat, order: T.Order): T.Gen {
    var f := FindClock(v.clocks, k);
    if f.Some? && f.value.free then GenAt(v, f.value, t, order) else IDLE
  }

  ghost predicate GensAt(v: Vec, gens: seq<T.Gen>, t: nat, order: T.Order) {
    forall k: nat | k < |gens| :: gens[k] == GenOf(v, k, t, order)
  }

  ghost predicate At(v: Vec, tb: T.Tb, bits: seq<Logic>, t: nat, order: T.Order)
    requires ClocksOk(v)
  {
    && tb.vec == bits && tb.nxt == bits && !tb.done
    && |tb.step| == |tb.gens| == v.header.nclk
    && GensAt(v, tb.gens, t, order) && Lines(v, tb.step, t)
  }

  function Before(tb: T.Tb, t: int, order: T.Order): T.Tb { T.Wake(tb, t, order(t)) }

  lemma AtReady(v: Vec, tb: T.Tb, bits: seq<Logic>, t: nat, order: T.Order)
    requires ClocksOk(v) && At(v, tb, bits, t, order)
    ensures var s := Before(tb, t, order);
            Ready(v, s, t) && s.nxt == bits && s.step == tb.step && |s.gens| == |tb.gens|
  {
    forall k: nat | k < |tb.gens| && !DeclaredFree(v, k)
      ensures tb.gens[k] == IDLE && T.Act(tb.gens[k], t).0 == IDLE
    {
      FoundIndex(v.clocks, k);
    }
  }

  /** The flips of one clock in a time step. */
  function FlipsOf(tb: T.Tb, r: T.Tb, k: nat, t: int, order: T.Order): seq<T.Obs>
    requires k < |tb.step| == |tb.gens| == |r.step| == |r.gens|
  {
    (if k in order(t) then T.FlipOf(tb.step[k], tb.gens[k], k, t) else []) + T.FlipOf(r.step[k], r.gens[k], k, t)
  }

  lemma FreeFlips(v: Vec, tb: T.Tb, r: T.Tb, bits: seq<Logic>, t: nat, order: T.Order, c: Clock, k: nat)
    requires ClocksOk(v) && At(v, tb, bits, t, order) && Stepped(v, Before(tb, t, order), r, t)
    requires c in v.clocks && c.free && c.index == k && k < |tb.gens|
    ensures FlipsOf(tb, r, k, t, order) == Shows(k, t, FlipsAt(v, c, t, order))
    ensures T.Act(r.gens[k], t).0 == GenAt(v, c, t + 1, order)
  {
    AtReady(v, tb, bits, t, order);
    FreeIndex(v, c, k);
    var g, s := GenAt(v, c, t, order), Before(tb, t, order);
    assert tb.gens[k] == g;
    assert s.gens[k] == if k in order(t) then T.Act(g, t).0 else g;
    assert r.gens[k] == Effect(s.gens[k], c, ActionAt(v, c, t));
    assert !tb.step[k] && !r.step[k];
    hide GenAt, ActionAt, T.Act, Stepped, At, Effect;
    var a, b := if k in order(t) then Opt(T.Act(g, t).1) else [], Opt(T.Act(r.gens[k], t).1);
    ShowsOpt(k, t, g);
    ShowsOpt(k, t, r.gens[k]);
    ShowsJoin(k, t, a, b);
  }

  lemma SteppedFlips(v: Vec, tb: T.Tb, r: T.Tb, bits: seq<Logic>, t: nat, order: T.Order, k: nat)
    requires ClocksOk(v) && At(v, tb, bits, t, order) && Stepped(v, Before(tb, t, order), r, t)
    requires k < |tb.gens| && !DeclaredFree(v, k)
    ensures T.FlipOf(tb.step[k], tb.gens[k], k, t) == [] && T.FlipOf(r.step[k], r.gens[k], k, t) == []
    ensures T.Act(r.gens[k], t).0 == IDLE == GenOf(v, k, t + 1, order)
  {
    AtReady(v, tb, bits, t, order);
    FoundIndex(v.clocks, k);
    assert tb.gens[k] == IDLE && Before(tb, t, order).gens[k] == IDLE;
    assert r.gens[k] == IDLE;
  }

  /** The generators at the next time step. */
  lemma NextGens(v: Vec, tb: T.Tb, r: T.Tb, bits: seq<Logic>, t: nat, order: T.Order)
    requires ClocksOk(v) && At(v, tb, bits, t, order) && Stepped(v, Before(tb, t, order), r, t)
    ensures GensAt(v, T.ActSome(r.gens, t, T.All(r)), t + 1, order)
  {
    forall k: nat | k < |r.gens|
      ensures T.Act(r.gens[k], t).0 == GenOf(v, k, t + 1, order)
    {
      AtReady(v, tb, bits, t, order);
      if DeclaredFree(v, k) {
        var c :| c in v.clocks && c.index == k && c.free;
        FreeIndex(v, c, k);
        FreeFlips(v, tb, r, bits, t, order, c, k);
      } else {
        SteppedFlips(v, tb, r, bits, t, order, k);
      }
    }
  }

  // ---- one time step ---------------------------------------------------------------------------------

  lemma {:induction false} PlainWith(es: seq<Event>, t: int)
    ensures With(G.Plain(es), t, Time) == G.Plain(With(es, t, Time))
    decreases es
  {
    if es != [] {
      var e, p, w := es[0], G.Plain(es[1..]), With(es[1..], t, Time);
      PlainWith(es[1..], t);
      if e.t == t {
        assert With(es, t, Time) == [e] + w;
        assert ([e] + w)[1..] == w && ([e] + w)[0] == e;
      } else {
        assert With(es, t, Time) == w;
      }
      if e.ClockStart? || e.ClockStop? {
        assert G.Plain(es) == p;
      } else {
        assert G.Plain(es) == [e] + p;
        assert ([e] + p)[1..] == p && ([e] + p)[0] == e;
      }
    }
  }

  lemma {:induction false} PlainShows(es: seq<Event>, bits: seq<Logic>)
    ensures G.ShownAll(G.Plain(es)) == G.ShownAll(es) && G.ApplySets(bits, G.Plain(es)) == G.ApplySets(bits, es)
    decreases es
  {
    if es != [] {
      var b := if es[0].Set? then G.PutBits(bits, es[0].lsb, es[0].value) else bits;
      PlainShows(es[1..], b);
      if es[0].ClockStart? || es[0].ClockStop? {
        assert G.Plain(es) == G.Plain(es[1..]);
      } else {
        assert G.Plain(es)[1..] == G.Plain(es[1..]) && G.Plain(es)[0] == es[0];
      }
    }
  }

  lemma {:induction false} ApplyJoin(bits: seq<Logic>, a: seq<Event>, b: seq<Event>)
    requires forall e | e in b :: !e.Set?
    ensures G.ApplySets(bits, a + b) == G.ApplySets(bits, a)
    decreases |a| + |b|
  {
    if a == [] {
      assert a + b == b;
      if b != [] {
        assert b[0] in b;
        ApplyJoin(bits, [], b[1..]);
        assert [] + b[1..] == b[1..];
      }
    } else {
      assert (a + b)[1..] == a[1..] + b && (a + b)[0] == a[0];
      ApplyJoin(if a[0].Set? then G.PutBits(bits, a[0].lsb, a[0].value) else bits, a[1..], b);
    }
  }

  function GoldenAt(v: Vec, t: int): seq<Event>
    requires ClocksOk(v)
  {
    With(G.Expand(v), t, Time)
  }

  lemma GoldenAtIs(v: Vec, t: int)
    requires ClocksOk(v)
    ensures GoldenAt(v, t) == G.Plain(EventsAt(v, t)) + FreeAt(v, t)
  {
    hide FreeEdges, G.Plain, Sort;
    WithSort(G.Plain(v.events) + FreeEdges(v), t, Time);
    WithJoin(G.Plain(v.events), FreeEdges(v), t, Time);
    PlainWith(v.events, t);
  }

  /** What golden replay shows at one time: the events of the step, then the free-clock edges. */
  lemma GoldenStep(v: Vec, bits: seq<Logic>, t: int)
    requires ClocksOk(v)
    ensures G.ApplySets(bits, GoldenAt(v, t)) == G.ApplySets(bits, EventsAt(v, t))
    ensures G.Step(GoldenAt(v, t), t, bits) == StepShows(v, bits, t) + G.ShownAll(FreeAt(v, t))
  {
    hide FreeAt, EventsAt, G.ApplySets, G.ShownAll, G.Plain, GoldenAt, ClocksOk;
    FreeAtEdges(v, t);
    GoldenAtIs(v, t);
    var p, f := G.Plain(EventsAt(v, t)), FreeAt(v, t);
    PlainShows(EventsAt(v, t), bits);
    ApplyJoin(bits, p, f);
    ShownJoin(p, f);
    var x, y, z := Moved(bits, G.ApplySets(bits, EventsAt(v, t)), t), G.ShownAll(p), G.ShownAll(f);
    assert x + (y + z) == x + y + z;
  }

  /** Beside a free-clock edge the events show nothing, but for initialisation. */
  lemma QuietBeside(v: Vec, m: DutMap, bits: seq<Logic>, t: nat)
    requires Plainly(v, m) && ClocksOk(v) && FreeAt(v, t) != [] && t > 0
    ensures StepShows(v, bits, t) == []
  {
    StepRules(v, m, t);
    hide Plainly, FreeAt, EventsAt;
    Quiet(EventsAt(v, t), bits);
  }

  lemma {:induction false} Quiet(es: seq<Event>, bits: seq<Logic>)
    requires forall e | e in es :: !e.Sample? && !e.Glbl? && !e.Edge? && !e.Set?
    ensures G.ShownAll(es) == [] && G.ApplySets(bits, es) == bits
    decreases es
  {
    if es != [] {
      assert es[0] in es;
      Quiet(es[1..], bits);
    }
  }

  // ---- a step of both --------------------------------------------------------------------------------

  predicate GoodTick(v: Vec, t: nat) { forall c | c in v.clocks && c.free :: GoodAt(v, c, t) }

  ghost predicate AllFollow(v: Vec, t: nat, order: T.Order)
    requires ClocksOk(v)
  {
    Periods(v);
    forall c | c in v.clocks && c.free :: GenInv(v, c, GenAt(v, c, t, order), t)
  }

  /** All generators show the edges of their runs. */
  ghost predicate AllShow(v: Vec, t: nat, order: T.Order)
    requires ClocksOk(v)
  {
    Periods(v);
    forall c | c in v.clocks && c.free :: Gold(v, c, t) == Shown(c, t, FlipsAt(v, c, t, order))
  }

  lemma AllTick(v: Vec, t: nat, order: T.Order)
    requires Clean(v) && t <= LastTime(v) && AllFollow(v, t, order)
    ensures AllShow(v, t, order) <==> GoodTick(v, t)
    ensures GoodTick(v, t) ==> AllFollow(v, t + 1, order)
  {
    Periods(v);
    assert forall c | c in v.clocks && c.free :: Sound(c);
    hide Clean, GoodAt, GenInv, Gold, Shown, FlipsAt, GenAt, LastTime, Sound;
    forall c | c in v.clocks && c.free
      ensures c.period > 0
      ensures Gold(v, c, t) == Shown(c, t, FlipsAt(v, c, t, order)) <==> GoodAt(v, c, t)
      ensures GoodAt(v, c, t) ==> GenInv(v, c, GenAt(v, c, t + 1, order), t + 1)
    {
      AtTick(v, c, t, order);
    }
  }

  // ---- a time step of both agrees exactly when it is good --------------------------------------------

  ghost predicate OnlyEdgeOf(v: Vec, c: Clock, t: int)
    requires ClocksOk(v)
  {
    Periods(v);
    c in v.clocks && c.free && Gold(v, c, t) == FreeAt(v, t)
    && forall d | d in v.clocks && d.free && d != c :: Gold(v, d, t) == []
  }

  /** The free-clock edge at a time is that of one clock. */
  lemma OneEdge(v: Vec, m: DutMap, t: nat) returns (c: Clock)
    requires Plainly(v, m) && ClocksOk(v) && FreeAt(v, t) != []
    ensures OnlyEdgeOf(v, c, t)
  {
    StepRules(v, m, t);
    FreeAtByClock(v, t);
    OneGold(v, v.clocks, t);
    Periods(v);
    hide Plainly, FreeAt, Gold, ClocksOk;
    var i :| 0 <= i < |v.clocks| && v.clocks[i].free && Gold(v, v.clocks[i], t) == GoldAll(v, v.clocks, t)
             && forall j :: 0 <= j < |v.clocks| && j != i && v.clocks[j].free ==> Gold(v, v.clocks[j], t) == [];
    c := v.clocks[i];
    forall d | d in v.clocks && d.free && d != c
      ensures Gold(v, d, t) == []
    {
      var j :| 0 <= j < |v.clocks| && v.clocks[j] == d;
    }
  }

  lemma OneEdgeShows(v: Vec, tb: T.Tb, r: T.Tb, bits: seq<Logic>, t: nat, order: T.Order, c: Clock)
    requires ClocksOk(v) && At(v, tb, bits, t, order) && Stepped(v, Before(tb, t, order), r, t)
    requires AllShow(v, t, order) && OnlyEdgeOf(v, c, t) && |tb.gens| == |r.gens| == |r.step| && 0 <= c.index < |tb.gens|
    ensures (T.Flips(tb, 0, t, order(t))) + T.Flips(r, 0, t, T.All(r)) == G.ShownAll(FreeAt(v, t))
  {
    Periods(v);
    hide FreeAt, Gold, FlipsAt, T.Flips, T.FlipOf, Stepped, At, Before;
    var k0 := c.index;
    assert |tb.step| == |tb.gens| by { StepLines(v, tb, bits, t, order); }
    forall k: nat | k < |tb.gens| && k != k0
      ensures T.FlipOf(tb.step[k], tb.gens[k], k, t) == [] || k !in order(t)
      ensures T.FlipOf(r.step[k], r.gens[k], k, t) == []
    {
      NoFlipOf(v, tb, r, bits, t, order, k);
    }
    OneFlip(tb, 0, t, order(t), k0);
    OneFlip(r, 0, t, T.All(r), k0);
    FreeFlips(v, tb, r, bits, t, order, c, k0);
    GoldForm(v, c, t);
    ShownGold(c, t, Gold(v, c, t), FlipsAt(v, c, t, order));
  }

  lemma StepLines(v: Vec, tb: T.Tb, bits: seq<Logic>, t: nat, order: T.Order)
    requires ClocksOk(v) && At(v, tb, bits, t, order)
    ensures |tb.step| == |tb.gens| == v.header.nclk
  {}

  /** The free-clock edge at a time, if any, is shown by one generator and by no other. */
  lemma FlipsShow(v: Vec, m: DutMap, tb: T.Tb, r: T.Tb, bits: seq<Logic>, t: nat, order: T.Order)
    requires Plainly(v, m) && ClocksOk(v) && At(v, tb, bits, t, order) && Stepped(v, Before(tb, t, order), r, t)
    requires AllShow(v, t, order)
    ensures var fe, fl := T.Flips(tb, 0, t, order(t)), T.Flips(r, 0, t, T.All(r));
            && fe + fl == G.ShownAll(FreeAt(v, t))
            && (t == 0 ==> fe == [])
  {
    assert |tb.gens| == |r.gens| by { AtReady(v, tb, bits, t, order); }
    StepLines(v, tb, bits, t, order);
    if t == 0 { IdleFlips(v, tb, bits, order); }
    Periods(v);
    hide Plainly, FreeAt, Gold, FlipsAt, T.Flips, T.FlipOf, Stepped, ClocksOk, At, AllShow, OnlyEdgeOf;
    if FreeAt(v, t) == [] {
      NoEdges(v, t);
      forall k: nat | k < |tb.gens|
        ensures T.FlipOf(tb.step[k], tb.gens[k], k, t) == [] || k !in order(t)
        ensures T.FlipOf(r.step[k], r.gens[k], k, t) == []
      {
        NoFlipOf(v, tb, r, bits, t, order, k);
      }
      NoFlips(tb, 0, t, order(t));
      NoFlips(r, 0, t, T.All(r));
    } else {
      var c := OneEdge(v, m, t);
      OnlyEdgeIndex(v, c, t);
      OneEdgeShows(v, tb, r, bits, t, order, c);
    }
  }

  lemma OnlyEdgeIndex(v: Vec, c: Clock, t: int)
    requires ClocksOk(v) && OnlyEdgeOf(v, c, t)
    ensures 0 <= c.index < v.header.nclk
  {
    Periods(v);
  }

  lemma NoEdges(v: Vec, t: int)
    requires ClocksOk(v) && FreeAt(v, t) == []
    ensures forall c | c in v.clocks :: c.period > 0 && (c.free ==> Gold(v, c, t) == [])
  {
    Periods(v);
    FreeAtByClock(v, t);
    hide Gold, FreeAt;
    OneGold(v, v.clocks, t);
  }

  lemma IdleFlips(v: Vec, tb: T.Tb, bits: seq<Logic>, order: T.Order)
    requires ClocksOk(v) && At(v, tb, bits, 0, order)
    ensures T.Flips(tb, 0, 0, order(0)) == []
  {
    forall k: nat | k < |tb.gens|
      ensures T.FlipOf(tb.step[k], tb.gens[k], k, 0) == []
    {
      assert tb.gens[k] == IDLE;
    }
    NoFlips(tb, 0, 0, order(0));
  }

  /** A clock without an edge at the time shows none. */
  lemma NoFlipOf(v: Vec, tb: T.Tb, r: T.Tb, bits: seq<Logic>, t: nat, order: T.Order, k: nat)
    requires ClocksOk(v) && At(v, tb, bits, t, order) && Stepped(v, Before(tb, t, order), r, t)
    requires AllShow(v, t, order) && k < |tb.gens| == |r.gens| == |r.step|
    requires forall c | c in v.clocks && c.free && c.index == k :: c.period > 0 && Gold(v, c, t) == []
    ensures T.FlipOf(tb.step[k], tb.gens[k], k, t) == [] || k !in order(t)
    ensures T.FlipOf(r.step[k], r.gens[k], k, t) == []
  {
    if DeclaredFree(v, k) {
      var c :| c in v.clocks && c.index == k && c.free;
      FreeFlips(v, tb, r, bits, t, order, c, k);
      hide Gold, FlipsAt, Stepped, At, T.FlipOf;
      assert Shown(c, t, FlipsAt(v, c, t, order)) == [];
      assert FlipsAt(v, c, t, order) == [];
    } else {
      SteppedFlips(v, tb, r, bits, t, order, k);
    }
  }

  /** What the testbench shows of clock `k` in a time step is what its generator does. */
  lemma TickOfClock(v: Vec, m: DutMap, tb: T.Tb, r: T.Tb, bits: seq<Logic>, t: nat, order: T.Order, c: Clock)
    requires Plainly(v, m) && ClocksOk(v) && At(v, tb, bits, t, order) && Stepped(v, Before(tb, t, order), r, t)
    requires c in v.clocks && c.free && 0 <= c.index < |tb.gens|
    ensures var fe, fl := T.Flips(tb, 0, t, order(t)), T.Flips(r, 0, t, T.All(r));
            OfClock(fe + StepShows(v, bits, t) + fl, c.index) == Shows(c.index, t, FlipsAt(v, c, t, order))
  {
    var k := c.index;
    assert |tb.gens| == |r.gens| by { AtReady(v, tb, bits, t, order); }
    FreeFlips(v, tb, r, bits, t, order, c, k);
    StepOfClock(v, m, bits, t, c);
    OfClockFlips(tb, 0, t, order(t), k);
    OfClockFlips(r, 0, t, T.All(r), k);
    hide Plainly, Stepped, At, T.Flips, T.FlipOf, FlipsAt, StepShows, OfClock, T.All;
    OfClockBeside(T.Flips(tb, 0, t, order(t)), StepShows(v, bits, t), T.Flips(r, 0, t, T.All(r)), k);
  }

  lemma OfClockBeside(fe: seq<T.Obs>, st: seq<T.Obs>, fl: seq<T.Obs>, k: int)
    requires OfClock(st, k) == []
    ensures OfClock(fe + st + fl, k) == OfClock(fe, k) + OfClock(fl, k)
  {
    OfClockJoin(fe + st, fl, k);
    OfClockJoin(fe, st, k);
    assert OfClock(fe, k) + [] == OfClock(fe, k);
  }

  lemma StepOfClock(v: Vec, m: DutMap, bits: seq<Logic>, t: nat, c: Clock)
    requires Plainly(v, m) && ClocksOk(v) && c in v.clocks && c.free
    ensures OfClock(StepShows(v, bits, t), c.index) == []
  {
    StepRules(v, m, t);
    FreeIndex(v, c, c.index);
    hide Plainly, EventsAt, G.ApplySets;
    var x, y := Moved(bits, G.ApplySets(bits, EventsAt(v, t)), t), G.ShownAll(EventsAt(v, t));
    OfClockJoin(x, y, c.index);
    if x != [] { OfClockOne(x[0], c.index); }
    NoneOfClock(EventsAt(v, t), c.index);
  }

  lemma {:induction false} NoneOfClock(es: seq<Event>, k: int)
    requires forall e | e in es && e.Edge? :: e.clk != k
    ensures OfClock(G.ShownAll(es), k) == []
    decreases es
  {
    if es != [] {
      assert es[0] in es;
      NoneOfClock(es[1..], k);
      OfClockJoin(G.Shown(es[0]), G.ShownAll(es[1..]), k);
      if G.Shown(es[0]) != [] { OfClockOne(G.Shown(es[0])[0], k); }
    }
  }

  lemma GoldenOfClock(v: Vec, m: DutMap, bits: seq<Logic>, t: nat, c: Clock)
    requires Plainly(v, m) && ClocksOk(v) && c in v.clocks && c.free && c.period > 0
    ensures OfClock(StepShows(v, bits, t) + G.ShownAll(FreeAt(v, t)), c.index) == G.ShownAll(Gold(v, c, t))
  {
    StepOfClock(v, m, bits, t, c);
    FreeAtByClock(v, t);
    forall d | d in v.clocks && d.index == c.index
      ensures d == c
    {
      FreeIndex(v, c, c.index);
      FreeIndex(v, d, c.index);
    }
    hide Plainly, FreeAt, StepShows, Gold;
    OfClockGolds(v, v.clocks, t, c);
    OfClockJoin(StepShows(v, bits, t), G.ShownAll(FreeAt(v, t)), c.index);
    var x := G.ShownAll(Gold(v, c, t));
    assert [] + x == x;
  }

  /** One time step: the testbench shows what golden replay shows if and only if every generator shows
      the edges of its runs. */
  lemma TickExact(v: Vec, m: DutMap, tb: T.Tb, bits: seq<Logic>, t: nat, order: T.Order)
    requires Plainly(v, m) && ClocksOk(v) && At(v, tb, bits, t, order) && t <= LastTime(v)
    ensures var log := T.TickLog(tb, Remaining(v, t), t, order, LabelsOf(v.events));
            log == G.Step(GoldenAt(v, t), t, bits) <==> AllShow(v, t, order)
  {
    hide Plainly, Remaining, LabelsOf, G.Step, GoldenAt, T.Main, T.MainLog, T.Flips, Stepped, StepShows, At, FreeAt, LastTime;
    AtReady(v, tb, bits, t, order);
    var s := Before(tb, t, order);
    MainTick(v, m, s, t);
    var r := T.Main(s, Remaining(v, t), t);
    GoldenStep(v, bits, t);
    var fe, st, fl, free := T.Flips(tb, 0, t, order(t)), StepShows(v, bits, t), T.Flips(r, 0, t, T.All(r)), G.ShownAll(FreeAt(v, t));
    assert T.TickLog(tb, Remaining(v, t), t, order, LabelsOf(v.events)) == fe + st + fl;
    if AllShow(v, t, order) {
      FlipsShow(v, m, tb, r, bits, t, order);
      Arrange(v, m, bits, t, fe, st, fl, free);
    } else if fe + st + fl == st + free {
      AllShowBy(v, m, tb, r, bits, t, order);
    }
  }

  lemma Arrange(v: Vec, m: DutMap, bits: seq<Logic>, t: nat, fe: seq<T.Obs>, st: seq<T.Obs>, fl: seq<T.Obs>, free: seq<T.Obs>)
    requires Plainly(v, m) && ClocksOk(v) && st == StepShows(v, bits, t) && free == G.ShownAll(FreeAt(v, t))
    requires fe + fl == free && (t == 0 ==> fe == [])
    ensures fe + st + fl == st + free
  {
    hide Plainly, StepShows, FreeAt;
    if fe == [] {
      assert [] + st + fl == st + fl && [] + fl == fl;
    } else {
      assert FreeAt(v, t) != [];
      QuietBeside(v, m, bits, t);
      assert fe + [] + fl == fe + fl && [] + free == free;
    }
  }

  lemma AllShowBy(v: Vec, m: DutMap, tb: T.Tb, r: T.Tb, bits: seq<Logic>, t: nat, order: T.Order)
    requires Plainly(v, m) && ClocksOk(v) && At(v, tb, bits, t, order) && Stepped(v, Before(tb, t, order), r, t)
    requires var fe, fl := T.Flips(tb, 0, t, order(t)), T.Flips(r, 0, t, T.All(r));
             fe + StepShows(v, bits, t) + fl == StepShows(v, bits, t) + G.ShownAll(FreeAt(v, t))
    ensures AllShow(v, t, order)
  {
    Periods(v);
    assert |tb.gens| == v.header.nclk;
    hide Plainly, At, Stepped, StepShows, FreeAt, Gold, FlipsAt, T.Flips;
    forall c | c in v.clocks && c.free
      ensures c.period > 0 && Gold(v, c, t) == Shown(c, t, FlipsAt(v, c, t, order))
    {
      TickOfClock(v, m, tb, r, bits, t, order, c);
      GoldenOfClock(v, m, bits, t, c);
      GoldForm(v, c, t);
      ShownGold(c, t, Gold(v, c, t), FlipsAt(v, c, t, order));
    }
  }

  /** The testbench at the next time step. */
  lemma NextAt(v: Vec, m: DutMap, tb: T.Tb, bits: seq<Logic>, t: nat, order: T.Order)
    requires Plainly(v, m) && ClocksOk(v) && At(v, tb, bits, t, order) && t < LastTime(v)
    ensures At(v, T.Tick(tb, Remaining(v, t), t, order), G.ApplySets(bits, GoldenAt(v, t)), t + 1, order)
  {
    PlainlyClean(v, m);
    EndStep(v, t);
    hide Plainly, Clean, Remaining, GoldenAt, T.Main, FreeAt, LastTime, Lines, GenOf, HasEnd, EventsAt, G.ApplySets;
    AtReady(v, tb, bits, t, order);
    var s := Before(tb, t, order);
    MainTick(v, m, s, t);
    GoldenStep(v, bits, t);
    NextGens(v, tb, T.Main(s, Remaining(v, t), t), bits, t, order);
  }

  // ---- whole runs ------------------------------------------------------------------------------------

  function ObsTime(o: T.Obs): int { if o.Release? then -1 else o.t }

  ghost predicate AllAt(log: seq<T.Obs>, t: int) { forall o | o in log :: ObsTime(o) == t }

  ghost predicate AllFrom(log: seq<T.Obs>, t: int) { forall o | o in log :: ObsTime(o) >= t }

  lemma FirstPart(a: seq<T.Obs>, b: seq<T.Obs>, t: int)
    requires AllAt(a, t) && AllFrom(b, t + 1)
    ensures With(a + b, t, ObsTime) == a
  {
    WithJoin(a, b, t, ObsTime);
    WithAll(a, t, ObsTime);
    WithNone(b, t, ObsTime);
    assert a + [] == a;
  }

  /** Histories that begin with a time step and go on later agree when both parts do. */
  lemma SplitByTime(a: seq<T.Obs>, b: seq<T.Obs>, c: seq<T.Obs>, d: seq<T.Obs>, t: int)
    requires AllAt(a, t) && AllAt(c, t) && AllFrom(b, t + 1) && AllFrom(d, t + 1)
    ensures a + b == c + d <==> a == c && b == d
  {
    FirstPart(a, b, t);
    FirstPart(c, d, t);
    assert b == (a + b)[|a|..] && d == (c + d)[|c|..];
  }

  lemma {:induction false} FlipTimes(tb: T.Tb, k: nat, t: int, who: set<int>)
    requires |tb.step| == |tb.gens|
    ensures AllAt(T.Flips(tb, k, t, who), t)
    decreases |tb.gens| - k
  {
    if k < |tb.gens| { FlipTimes(tb, k + 1, t, who); }
  }

  lemma {:induction false} MainTimes(tb: T.Tb, ws: seq<Word>, t: int, labels: seq<string>)
    requires |tb.step| == |tb.gens|
    ensures AllAt(T.MainLog(tb, ws, t, labels), t)
    decreases ws
  {
    if !tb.done && ws != [] && ws[0].t <= t {
      assert AllAt(T.ExecLog(tb, ws[0], t, labels), t);
      hide T.ExecLog, T.Exec;
      MainTimes(T.Exec(tb, ws[0]), ws[1..], t, labels);
    }
  }

  lemma TickTimes(tb: T.Tb, ws: seq<Word>, t: int, order: T.Order, labels: seq<string>)
    requires |tb.step| == |tb.gens|
    ensures AllAt(T.TickLog(tb, ws, t, order, labels), t)
  {
    hide T.Flips, T.Main, T.MainLog;
    FlipTimes(tb, 0, t, order(t));
    MainTimes(Before(tb, t, order), ws, t, labels);
    FlipTimes(T.Main(Before(tb, t, order), ws, t), 0, t, T.All(tb));
  }

  lemma {:induction false} HistoryTimes(tb: T.Tb, ws: seq<Word>, t: int, until: int, order: T.Order, labels: seq<string>)
    requires |tb.step| == |tb.gens|
    ensures AllFrom(T.History(tb, ws, t, until, order, labels), t)
    decreases until + 1 - t
  {
    hide T.TickLog, T.Tick, T.Rest;
    if t <= until {
      TickTimes(tb, ws, t, order, labels);
      HistoryTimes(T.Tick(tb, ws, t, order), T.Rest(ws, t), t + 1, until, order, labels);
    }
  }

  lemma {:induction false} StepTimes(es: seq<Event>, t: int)
    requires forall e | e in es :: e.t == t
    ensures AllAt(G.ShownAll(es), t)
    decreases es
  {
    if es != [] {
      assert es[0] in es;
      StepTimes(es[1..], t);
    }
  }

  /** Without the end of the start-up GSR, which no word makes. */
  function Events(log: seq<T.Obs>): seq<T.Obs> {
    if log == [] then [] else (if log[0].Release? then [] else [log[0]]) + Events(log[1..])
  }

  lemma {:induction false} EventsJoin(a: seq<T.Obs>, b: seq<T.Obs>)
    ensures Events(a + b) == Events(a) + Events(b)
  {
    if a == [] {
      assert a + b == b;
    } else {
      assert (a + b)[1..] == a[1..] + b && (a + b)[0] == a[0];
      EventsJoin(a[1..], b);
      var h := if a[0].Release? then [] else [a[0]];
      assert h + (Events(a[1..]) + Events(b)) == h + Events(a[1..]) + Events(b);
    }
  }

  lemma {:induction false} EventsAll(a: seq<T.Obs>)
    requires forall o | o in a :: !o.Release?
    ensures Events(a) == a
  {
    if a != [] {
      assert a[0] in a;
      EventsAll(a[1..]);
      assert a == [a[0]] + a[1..];
    }
  }

  lemma {:induction false} SameTimeIs(a: seq<Event>, b: seq<Event>, t: int)
    requires (forall e | e in a :: e.t == t) && (b != [] ==> b[0].t != t)
    ensures G.SameTime(a + b, t) == |a|
    decreases a
  {
    if a == [] {
      assert a + b == b;
    } else {
      assert a[0] in a;
      assert (a + b)[1..] == a[1..] + b && (a + b)[0] == a[0];
      SameTimeIs(a[1..], b, t);
    }
  }

  lemma GroupIs(a: seq<Event>, b: seq<Event>, t: int)
    requires a != [] && (forall e | e in a :: e.t == t) && (forall e | e in b :: e.t > t)
    ensures G.GroupLen(a + b) == |a| && (a + b)[..|a|] == a && (a + b)[|a|..] == b && (a + b)[0] == a[0] && a[0].t == t
  {
    assert a[0] in a;
    assert b != [] ==> b[0] in b;
    assert (a + b)[1..] == a[1..] + b;
    SameTimeIs(a[1..], b, t);
  }

  function Still(v: Vec, t: int): seq<Event>
    requires ClocksOk(v)
  {
    From(G.Expand(v), t, Time)
  }

  lemma StillSplit(v: Vec, t: int)
    requires ClocksOk(v)
    ensures Still(v, t) == GoldenAt(v, t) + Still(v, t + 1)
    ensures (forall e | e in GoldenAt(v, t) :: e.t == t) && (forall e | e in Still(v, t + 1) :: e.t > t)
  {
    SortSorted(G.Plain(v.events) + FreeEdges(v), Time);
    FromSplit(G.Expand(v), t, Time);
    FromIn(G.Expand(v), t + 1, Time);
    WithIn(G.Expand(v), t, Time);
  }

  /** Golden replay of the groups is golden replay of the time steps. */
  lemma ReplayStep(v: Vec, bits: seq<Logic>, t: int, released: bool) returns (next: bool)
    requires ClocksOk(v) && t >= 0
    ensures Events(G.Replayed(Still(v, t), bits, released))
            == G.Step(GoldenAt(v, t), t, bits) + Events(G.Replayed(Still(v, t + 1), G.ApplySets(bits, GoldenAt(v, t)), next))
    ensures AllAt(G.Step(GoldenAt(v, t), t, bits), t)
  {
    StillSplit(v, t);
    hide Still, GoldenAt, ClocksOk;
    var a, b := GoldenAt(v, t), Still(v, t + 1);
    StepTimes(a, t);
    if a == [] {
      assert a + b == b;
      next := released;
      var x := Events(G.Replayed(b, bits, released));
      assert G.Step(a, t, bits) == [];
      assert [] + x == x;
    } else {
      GroupIs(a, b, t);
      var now := !released && t >= ROC_WIDTH;
      next := released || now;
      var rel, st, more := if now then [T.Release] else [], G.Step(a, t, bits), G.Replayed(b, G.ApplySets(bits, a), next);
      hide G.Step, G.ApplySets, G.GroupLen;
      assert G.Replayed(a + b, bits, released) == rel + st + more;
      EventsJoin(rel + st, more);
      EventsJoin(rel, st);
      assert Events(rel) == [] by { assert [T.Release][1..] == []; }
      EventsAll(st);
      assert [] + st == st;
    }
  }

  /** No event of golden replay comes after the last one of the stimulus. */
  lemma StillEmpty(v: Vec)
    requires Clean(v)
    ensures ClocksOk(v) && Still(v, LastTime(v) + 1) == []
  {
    assert ClocksOk(v);
    hide Clean, ClocksOk, G.Plain, FreeEdges, LastTime, Sort, From;
    forall e | e in G.Expand(v)
      ensures Time(e) <= LastTime(v)
    {
      ExpandIn(v, e);
      NotAfterLast(v, e);
    }
    FromNone(G.Expand(v), LastTime(v) + 1, Time);
  }

  lemma ExpandIn(v: Vec, e: Event)
    requires ClocksOk(v) && e in G.Expand(v)
    ensures e in G.Plain(v.events) || e in FreeEdges(v)
  {
    hide G.Plain, FreeEdges, Sort;
    SortIn(G.Plain(v.events) + FreeEdges(v), e, Time);
  }

  lemma NotAfterLast(v: Vec, e: Event)
    requires Clean(v) && (e in G.Plain(v.events) || e in FreeEdges(v))
    ensures e.t <= LastTime(v)
  {
    if e in G.Plain(v.events) {
      PlainIn(v.events);
      EventByLast(v, e);
    } else {
      WithIn(FreeEdges(v), e.t, Time);
      assert e in FreeAt(v, e.t);
      RunClocks(v, v.clocks);
      SortIn(EdgesOf(v, FreeRuns(v)), e, Time);
      Periods(v);
      StopTimes(v);
      EdgesWithin(v, FreeRuns(v), LastTime(v));
    }
  }

  lemma {:induction false} PlainIn(es: seq<Event>)
    ensures forall e | e in G.Plain(es) :: e in es
    decreases es
  {
    if es != [] { PlainIn(es[1..]); }
  }

  lemma {:induction false} EdgesWithin(v: Vec, runs: seq<Span>, last: int)
    requires forall r | r in runs :: r.clock.period > 0 && Sound(r.clock) && Limit(v, r) <= last
    ensures forall e | e in EdgesOf(v, runs) :: e.t <= last
    decreases runs
  {
    if runs != [] {
      assert runs[0] in runs;
      EdgesExact(runs[0].clock, runs[0].start, Limit(v, runs[0]));
      EdgesWithin(v, runs[1..], last);
    }
  }

  lemma StopTimes(v: Vec)
    requires Clean(v)
    ensures forall r | r in FreeRuns(v) :: r.clock in v.clocks && r.clock.free && Limit(v, r) <= LastTime(v)
  {
    RunClocks(v, v.clocks);
    hide Clean, LastTime, RunsFrom, Explicit;
    forall r | r in FreeRuns(v)
      ensures r.clock in v.clocks && r.clock.free && Limit(v, r) <= LastTime(v)
    {
      var c := r.clock;
      StopsAreEvents(c, v.events, if Explicit(v, c.index) then None else Some(c.phase));
      if r.stop.Some? {
        var e :| e in v.events && e.t == r.stop.value;
        EventByLast(v, e);
      }
    }
  }

  lemma EventByLast(v: Vec, e: Event)
    requires Clean(v) && e in v.events
    ensures e.t <= LastTime(v)
  {
    var i :| 0 <= i < |v.events| && v.events[i] == e;
    assert i < |v.events| - 1 ==> Time(v.events[i]) <= Time(v.events[|v.events| - 1]);
  }

  lemma {:induction false} StopsAreEvents(c: Clock, es: seq<Event>, open: Option<int>)
    ensures forall r | r in RunsFrom(c, es, open) && r.stop.Some? :: exists e :: e in es && e.t == r.stop.value
    decreases es
  {
    if es != [] {
      assert es == [es[0]] + es[1..];
      if StartOf(es[0], c.index) {
        StopsAreEvents(c, es[1..], Some(es[0].t));
      } else if StopOf(es[0], c.index) && open.Some? {
        StopsAreEvents(c, es[1..], None);
        assert es[0] in es;
      } else {
        StopsAreEvents(c, es[1..], open);
      }
    }
  }

  ghost predicate GoodFrom(v: Vec, t: int) { forall k: nat | t <= k <= LastTime(v) :: GoodTick(v, k) }

  lemma ReplayTimes(v: Vec, bits: seq<Logic>, t: nat, released: bool)
    requires ClocksOk(v) && Clean(v) && t <= LastTime(v) + 1
    ensures AllFrom(Events(G.Replayed(Still(v, t), bits, released)), t)
    decreases LastTime(v) + 1 - t
  {
    if t == LastTime(v) + 1 {
      StillEmpty(v);
    } else {
      hide Clean, Still, G.Replayed, Events, G.Step, ClocksOk, LastTime;
      var next := ReplayStep(v, bits, t, released);
      ReplayTimes(v, G.ApplySets(bits, GoldenAt(v, t)), t + 1, next);
    }
  }

  /** From any time step on, with the testbench and golden replay in the same state: the histories are
      the same if and only if every clock is good from there on. */
  lemma {:induction false} HistoryExact(v: Vec, m: DutMap, tb: T.Tb, bits: seq<Logic>, t: nat, order: T.Order, released: bool)
    requires Plainly(v, m) && ClocksOk(v) && t <= LastTime(v) && At(v, tb, bits, t, order) && AllFollow(v, t, order)
    ensures |tb.step| == |tb.gens|
    ensures (T.History(tb, Remaining(v, t), t, LastTime(v), order, LabelsOf(v.events))
             == Events(G.Replayed(Still(v, t), bits, released)))
            <==> GoodFrom(v, t)
    decreases LastTime(v) - t
  {
    hide Clean, Plainly, Remaining, Still, LabelsOf, G.Replayed, Events, G.Step, ClocksOk, T.TickLog, T.Tick, T.Rest, At, AllFollow,
         AllShow, GoodTick, GoodFrom, GoldenAt, LastTime, T.History;
    StepLines(v, tb, bits, t, order);
    PlainlyClean(v, m);
    TickExact(v, m, tb, bits, t, order);
    AllTick(v, t, order);
    var next := ReplayStep(v, bits, t, released);
    var labels, last := LabelsOf(v.events), LastTime(v);
    var log, step := T.TickLog(tb, Remaining(v, t), t, order, labels), G.Step(GoldenAt(v, t), t, bits);
    var tb', bits' := T.Tick(tb, Remaining(v, t), t, order), G.ApplySets(bits, GoldenAt(v, t));
    var gold := Events(G.Replayed(Still(v, t + 1), bits', next));
    var more := T.History(tb', Remaining(v, t + 1), t + 1, last, order, labels);
    HistoryStep(v, m, tb, t, last, order, labels);
    GoodSplit(v, t);
    ReplayTimes(v, bits', t + 1, next);
    TickTimes(tb, Remaining(v, t), t, order, labels);
    HistoryTimes(tb', Remaining(v, t + 1), t + 1, last, order, labels);
    SplitByTime(log, more, step, gold, t);
    if t < last {
      if GoodTick(v, t) {
        NextAt(v, m, tb, bits, t, order);
        HistoryExact(v, m, tb', bits', t + 1, order, next);
      }
    } else {
      LastStep(v, m, tb', bits', t, last, order, labels, next);
    }
  }

  lemma LastStep(v: Vec, m: DutMap, tb: T.Tb, bits: seq<Logic>, t: nat, last: int, order: T.Order, labels: seq<string>, released: bool)
    requires Clean(v) && ClocksOk(v) && t == last == LastTime(v) && |tb.step| == |tb.gens|
    ensures T.History(tb, Remaining(v, t + 1), t + 1, last, order, labels) == []
    ensures Events(G.Replayed(Still(v, t + 1), bits, released)) == []
    ensures GoodFrom(v, t + 1)
  {
    hide Clean, ClocksOk, Still, Remaining, GoodTick, T.TickLog, T.Tick, T.Rest, LastTime;
    StillEmpty(v);
    assert G.Replayed([], bits, released) == [];
  }

  lemma GoodSplit(v: Vec, t: nat)
    requires t <= LastTime(v)
    ensures GoodFrom(v, t) <==> GoodTick(v, t) && GoodFrom(v, t + 1)
  {
    hide GoodTick, LastTime;
  }

  lemma HistoryStep(v: Vec, m: DutMap, tb: T.Tb, t: nat, last: int, order: T.Order, labels: seq<string>)
    requires Plainly(v, m) && t <= last == LastTime(v) && |tb.step| == |tb.gens|
    ensures T.History(tb, Remaining(v, t), t, last, order, labels)
            == T.TickLog(tb, Remaining(v, t), t, order, labels)
               + T.History(T.Tick(tb, Remaining(v, t), t, order), Remaining(v, t + 1), t + 1, last, order, labels)
  {
    RemainingSplit(v, m, t);
    hide Plainly, Remaining, T.TickLog, T.Tick, T.Rest, WordsAt;
    RestIs(WordsAt(v, t), Remaining(v, t + 1), t);
  }

  // ---- the theorem -----------------------------------------------------------------------------------

  /** No free clock is started while it runs, and each that starts by itself does. */
  predicate Orderly(v: Vec) { forall c | c in v.clocks && c.free :: ClockOrderly(v, c) }

  lemma GoodOrderly(v: Vec)
    requires Clean(v)
    ensures GoodFrom(v, 0) <==> Orderly(v)
  {
    forall c | c in v.clocks && c.free
      ensures ClockOrderly(v, c) <==> forall t: nat | t <= LastTime(v) :: GoodAt(v, c, t)
    {
      OrderlyGood(v, c);
    }
    hide Clean, GoodAt, ClockOrderly, LastTime;
    if Orderly(v) {
      forall k: nat | 0 <= k <= LastTime(v)
        ensures GoodTick(v, k)
      {}
    }
    if GoodFrom(v, 0) {
      forall c | c in v.clocks && c.free
        ensures ClockOrderly(v, c)
      {
        forall t: nat | t <= LastTime(v)
          ensures GoodAt(v, c, t)
        {
          assert GoodTick(v, t);
        }
      }
    }
  }

  lemma StartAt(v: Vec, m: DutMap, order: T.Order)
    requires Plainly(v, m) && ClocksOk(v) && v.header.nin >= 0 && v.header.nclk >= 0
    ensures At(v, T.PowerUp(v.header.nin, v.header.nclk), G.Zeros(v.header.nin), 0, order)
    ensures AllFollow(v, 0, order)
  {
    PlainlyClean(v, m);
    Periods(v);
    forall c | c in v.clocks && c.free
      ensures c.period > 0 && GenInv(v, c, GenAt(v, c, 0, order), 0)
    {
      StartFollows(v, c);
    }
    StartLines(v, m);
  }

  lemma StartLines(v: Vec, m: DutMap)
    requires Plainly(v, m) && ClocksOk(v) && v.header.nclk >= 0
    ensures Lines(v, seq(v.header.nclk, i => false), 0)
  {
    PlainlyClean(v, m);
    TimelineFrom(v);
    hide Clean, Timeline, WordsOf, From;
    assert EdgesOk(v, Timeline(v)) by { ErrorFreeParts(v, m); }
  }

  /** The whole timeline is still to come. */
  lemma TimelineFrom(v: Vec)
    requires Clean(v)
    ensures From(Timeline(v), 0, Time) == Timeline(v)
  {
    SortSorted(Later(v.events) + FreeEdges(v), Time);
    forall e | e in Timeline(v)
      ensures Time(e) >= 0
    {
      SortIn(Later(v.events) + FreeEdges(v), e, Time);
      LaterIn(v.events);
      if e in FreeEdges(v) { FreeNotNegative(v, e); }
    }
    FromAll(Timeline(v), 0, Time);
  }

  lemma FreeNotNegative(v: Vec, e: Event)
    requires Clean(v) && e in FreeEdges(v)
    ensures e.t >= 0
  {
    RunClocks(v, v.clocks);
    SortIn(EdgesOf(v, FreeRuns(v)), e, Time);
    Periods(v);
    StopTimes(v);
    forall r | r in FreeRuns(v)
      ensures r.start >= 0
    {
      StartsNotNegative(r.clock, v.events, if Explicit(v, r.clock.index) then None else Some(r.clock.phase));
    }
    EdgesNotNegative(v, FreeRuns(v));
  }

  lemma {:induction false} StartsNotNegative(c: Clock, es: seq<Event>, open: Option<int>)
    requires (forall e | e in es :: e.t >= 0) && (open.Some? ==> open.value >= 0)
    ensures forall r | r in RunsFrom(c, es, open) :: r.start >= 0
    decreases es
  {
    if es != [] {
      assert es[0] in es;
      StartsNotNegative(c, es[1..], if StartOf(es[0], c.index) then Some(es[0].t) else if StopOf(es[0], c.index) then None else open);
    }
  }

  lemma {:induction false} EdgesNotNegative(v: Vec, runs: seq<Span>)
    requires forall r | r in runs :: r.clock.period > 0 && Sound(r.clock) && r.start >= 0
    ensures forall e | e in EdgesOf(v, runs) :: e.t >= 0
    decreases runs
  {
    if runs != [] {
      assert runs[0] in runs;
      EdgesExact(runs[0].clock, runs[0].start, Limit(v, runs[0]));
      EdgesNotNegative(v, runs[1..]);
    }
  }

  lemma AllStill(v: Vec)
    requires Clean(v)
    ensures Still(v, 0) == G.Expand(v)
  {
    SortSorted(G.Plain(v.events) + FreeEdges(v), Time);
    forall e | e in G.Expand(v)
      ensures Time(e) >= 0
    {
      ExpandIn(v, e);
      PlainIn(v.events);
      if e in FreeEdges(v) { FreeNotNegative(v, e); }
    }
    FromAll(G.Expand(v), 0, Time);
  }

  lemma AllRemaining(v: Vec, m: DutMap)
    requires Plainly(v, m)
    ensures Decoded(Sort(Image(WordsOf(v)), ImageTime)) == Remaining(v, 0)
  {
    hide WordsOf, ErrorFree;
    SortedImage(WordsOf(v));
    var s := Sort(WordsOf(v), WordTime);
    forall w | w in s
      ensures WordTime(w) >= 0
    {
      SortIn(WordsOf(v), w, WordTime);
      assert Fits(w);
    }
    FromAll(s, 0, WordTime);
  }

  /** Compilation preserves meaning. Whichever clock generators the simulator resumes before the operation
      process, at every time, the compiled image shows the device under test, through the last event, the same
      input changes, clock edges, glbl writes and samples at the same times as golden replay predicts,
      if and only if the free clocks are orderly. */
  lemma SameHistory(v: Vec, m: DutMap, order: T.Order)
    requires Plainly(v, m) && ClocksOk(v) && v.header.nin >= 0 && v.header.nclk >= 0
    ensures (T.Simulated(Sort(Image(WordsOf(v)), ImageTime), LabelsOf(v.events), v.header.nin, v.header.nclk, LastTime(v), order)
             == Events(G.Predicted(v)))
            <==> Orderly(v)
  {
    PlainlyClean(v, m);
    assert LastTime(v) >= 0;
    StartAt(v, m, order);
    AllStill(v);
    AllRemaining(v, m);
    GoodOrderly(v);
    hide Clean, Plainly, Remaining, Still, LabelsOf, G.Replayed, Events, ClocksOk, T.History, At, AllFollow, Orderly, GoodFrom, LastTime,
         WordsOf, G.Expand, Sort;
    HistoryExact(v, m, T.PowerUp(v.header.nin, v.header.nclk), G.Zeros(v.header.nin), 0, order, false);
  }
}
