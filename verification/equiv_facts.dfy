/** What the generator of the equivalence stimulus works with (`_Stim` of verilatorize/equiv.py): the
    triggers of a model, and what stays true of the builder from call to call. */
module EquivFacts {
  import opened Wrap
  import opened Stimulus
  import opened Validation
  import opened BuilderFacts
  import opened BuilderState
  import opened BuilderProgress
  import Decimal

  const SETTLE := 120_000
  const PERIOD := 10_000

  // ---- the triggers of a model -----------------------------------------------------------------------

  datatype Kind = OnGlbl | OnClock | OnAsync | OnData

  /** `_Trig`; `ones`: the value that asserts it. */
  datatype Trig = Trig(name: string, kind: Kind, sig: Signal, ones: int)

  /** The ports with plain bits on a vector, in map order. */
  function Ports(bits: seq<Bit>, v: VecName, seen: set<string>): seq<string> {
    if bits == [] then []
    else if bits[0].vec == v && bits[0].role == Plain && bits[0].port !in seen then [bits[0].port] + Ports(bits[1..], v, seen + {bits[0].port})
    else Ports(bits[1..], v, seen)
  }

  predicate Changing(m: DutMap, p: string) { ClsOf(m.bits, p) == Some(Async) || ClsOf(m.bits, p) == Some(Gate) }

  function GlblOf(name: string): Option<Signal> {
    if name == "glbl.GSR" then Some(GSR) else if name == "glbl.GTS" then Some(GTS) else if name == "glbl.GRESTORE" then Some(GRESTORE) else None
  }

  /** `_trig`: None is an error. */
  function Resolve(m: DutMap, name: string): Option<Trig> {
    if "glbl." <= name then
      var sig := GlblOf(name);
      if sig.None? then None else Some(Trig(name, OnGlbl, sig.value, 1))
    else if name in Ports(m.bits, Clk, {}) then Some(Trig(name, OnClock, GSR, 1))
    else if name !in Ports(m.bits, In, {}) then None
    else if Changing(m, name) then (if |InBits(m, name)| == 1 then Some(Trig(name, OnAsync, GSR, 1)) else None)
    else Some(Trig(name, OnData, GSR, Pow2(|InBits(m, name)|) - 1))
  }

  predicate Identifier(p: string) {
    p != "" && forall i :: 0 <= i < |p| ==> 'A' <= p[i] <= 'Z' || 'a' <= p[i] <= 'z' || '0' <= p[i] <= '9' || p[i] == '_'
  }

  /** The names of ports are Verilog identifiers. */
  ghost predicate Named(m: DutMap) { forall b | b in m.bits :: Identifier(b.port) }

  predicate DistinctNames(s: seq<string>) { forall i, j :: 0 <= i < j < |s| ==> s[i] != s[j] }

  function NamesOf(ts: seq<Trig>): set<string> { set t | t in ts :: t.name }

  /** The data ports (`changing` false) or async and gate ports that are no triggers. */
  function Others(m: DutMap, ins: seq<string>, names: set<string>, changing: bool): seq<string> {
    if ins == [] then [] else
    (if Changing(m, ins[0]) == changing && ins[0] !in names then [ins[0]] else []) + Others(m, ins[1..], names, changing)
  }

  lemma {:induction false} PortsAre(bits: seq<Bit>, v: VecName, seen: set<string>)
    ensures forall p :: p in Ports(bits, v, seen) <==> p !in seen && PortBits(bits, v, p, Plain) != []
    ensures DistinctNames(Ports(bits, v, seen))
  {
    if bits != [] {
      var b := bits[0];
      if b.vec == v && b.role == Plain && b.port !in seen {
        PortsAre(bits[1..], v, seen + {b.port});
        assert forall p :: p in Ports(bits, v, seen) <==> p == b.port || p in Ports(bits[1..], v, seen + {b.port});
      } else {
        PortsAre(bits[1..], v, seen);
      }
    }
  }

  lemma {:induction false} OthersAre(m: DutMap, ins: seq<string>, names: set<string>, changing: bool)
    ensures forall p :: p in Others(m, ins, names, changing) <==> p in ins && Changing(m, p) == changing && p !in names
    ensures DistinctNames(ins) ==> DistinctNames(Others(m, ins, names, changing))
  {
    hide Changing;
    if ins != [] {
      OthersAre(m, ins[1..], names, changing);
      assert forall p :: p in ins <==> p == ins[0] || p in ins[1..];
      if DistinctNames(ins) {
        assert DistinctNames(ins[1..]) && ins[0] !in ins[1..];
      }
    }
  }

  // ---- what the generator works with -----------------------------------------------------------------

  /** What does not change: the builder's parameters, the triggers, the clocks and the other inputs. */
  datatype Plan = Plan(c: Params, trigs: seq<Trig>, clocks: seq<string>, data: seq<string>, asyncs: seq<string>)

  function PlanFor(c: Params, trigs: seq<Trig>): Plan {
    var ins := Ports(c.m.bits, In, {});
    Plan(c, trigs, Ports(c.m.bits, Clk, {}), Others(c.m, ins, NamesOf(trigs), false), Others(c.m, ins, NamesOf(trigs), true))
  }

  ghost predicate PlanOk(g: Plan) {
    && WellFormed(g.c.m) && Named(g.c.m) && g == PlanFor(g.c, g.trigs)
    && forall t | t in g.trigs :: Resolve(g.c.m, t.name) == Some(t)
  }

  /** Every clock port is a single bit. */
  predicate Narrow(g: Plan) { forall p | p in g.clocks :: ClockOf(g.c, p).Some? }

  predicate OneBit(g: Plan, p: string) { |InBits(g.c.m, p)| == 1 }

  lemma ClockIs(g: Plan, p: string)
    requires PlanOk(g) && p in g.clocks && ClockOf(g.c, p).Some?
    ensures 0 <= ClockOf(g.c, p).value < g.c.m.nclk
    ensures forall q | q in g.clocks && ClockOf(g.c, q) == ClockOf(g.c, p) :: q == p
  {
    var m := g.c.m;
    ClockBit(m, p);
    forall q | q in g.clocks && ClockOf(g.c, q) == ClockOf(g.c, p)
      ensures q == p
    {
      ClockOwner(m, p);
      ClockOwner(m, q);
    }
  }

  lemma ClockOwner(m: DutMap, p: string)
    requires WellFormed(m) && |PortBits(m.bits, Clk, p, Plain)| == 1
    ensures var k := PortBits(m.bits, Clk, p, Plain)[0].bit; k < |Of(m.bits, Clk)| && Of(m.bits, Clk)[k].port == p
  {
    var b := PortBits(m.bits, Clk, p, Plain)[0];
    PortBitsIn(m.bits, Clk, p, Plain);
    assert b in Of(m.bits, Clk);
    var k :| 0 <= k < |Of(m.bits, Clk)| && Of(m.bits, Clk)[k] == b;
  }

  // ---- labels ----------------------------------------------------------------------------------------

  ghost predicate EndsIn(l: string, k: nat) { exists p :: l == p + "." + Decimal.Dec(k) }

  /** Every label ends in a number below `n`. */
  ghost predicate LabelsBelow(ls: set<string>, n: nat) { forall l | l in ls :: exists k: nat | k < n :: EndsIn(l, k) }

  lemma LastNumber(p: string, j: nat, q: string, k: nat)
    requires p + "." + Decimal.Dec(j) == q + "." + Decimal.Dec(k)
    ensures j == k
  {
    hide LastPart;
    LastIs(p, Decimal.Dec(j));
    LastIs(q, Decimal.Dec(k));
    Decimal.DecReadsBack(j);
    Decimal.DecReadsBack(k);
  }

  /** What follows the last dot. */
  function LastPart(s: string): string {
    if s == "" || s[|s| - 1] == '.' then "" else LastPart(s[..|s| - 1]) + [s[|s| - 1]]
  }

  lemma {:induction false} LastIs(p: string, a: string)
    requires forall i :: 0 <= i < |a| ==> a[i] != '.'
    ensures LastPart(p + "." + a) == a
    decreases |a|
  {
    var s := p + "." + a;
    if a == "" {
      assert s[|s| - 1] == '.';
    } else {
      var init := a[..|a| - 1];
      assert s[..|s| - 1] == p + "." + init && s[|s| - 1] == a[|a| - 1];
      LastIs(p, init);
      assert a == init + [a[|a| - 1]];
    }
  }

  lemma LabelJoin(a: string, b: string)
    requires IsLabel(a) && IsLabel(b)
    ensures IsLabel(a + b)
  {}

  lemma LabelDot(a: string, b: string)
    requires IsLabel(a) && IsLabel(b)
    ensures IsLabel(a + "." + b)
  {
    assert forall i :: 0 <= i < |a + "." + b| ==> (a + "." + b)[i] in a || (a + "." + b)[i] == '.' || (a + "." + b)[i] in b;
  }

  lemma LabelNumber(n: nat)
    ensures IsLabel(Decimal.Dec(n))
  {
    var s := Decimal.Dec(n);
    assert forall i :: 0 <= i < |s| ==> Decimal.IsDigit(s[i]);
  }

  /** What samples are called. */
  lemma Words()
    ensures IsLabel("a") && IsLabel("u") && IsLabel("d") && IsLabel("on") && IsLabel("off") && IsLabel("fall") && IsLabel("idle")
  {}

  /** A new label is no label yet. */
  lemma NewLabel(ls: set<string>, n: nat, tag: string, what: string)
    requires LabelsBelow(ls, n) && IsLabel(tag) && IsLabel(what)
    ensures var l := tag + "." + what + "." + Decimal.Dec(n); IsLabel(l) && l !in ls && LabelsBelow(ls + {l}, n + 1)
  {
    var l := tag + "." + what + "." + Decimal.Dec(n);
    LabelDot(tag, what);
    LabelNumber(n);
    LabelDot(tag + "." + what, Decimal.Dec(n));
    hide IsLabel, Decimal.Dec;
    if l in ls {
      var k: nat :| k < n && EndsIn(l, k);
      var p :| l == p + "." + Decimal.Dec(k);
      LastNumber(tag + "." + what, n, p, k);
      assert false;
    }
    forall x | x in ls + {l}
      ensures exists k: nat | k < n + 1 :: EndsIn(x, k)
    {
      if x == l {
        assert EndsIn(l, n);
      } else {
        var k: nat :| k < n && EndsIn(x, k);
        assert k < n + 1;
      }
    }
  }

  function IndTag(t: Trig, k: nat): string { "ind." + t.name + "." + Decimal.Dec(k) }

  function WalkTag(t: Trig, pat: string, k: nat): string { "walk." + t.name + "." + pat + Decimal.Dec(k) }

  function CoinTag(t: Trig, p: string): string { "coin." + t.name + "." + p }

  function PairTag(t: Trig, u: Trig, how: string): string { "pair." + t.name + "." + u.name + "." + how }

  function AsyncTag(t: Trig, q: string): string { "async." + t.name + "." + q }

  function InputsTag(k: nat): string { "zcmp." + Decimal.Dec(k) }

  // ---- the state between the calls -------------------------------------------------------------------

  /** A trigger that is a port with a value. */
  predicate Valued(t: Trig) { t.kind == OnAsync || t.kind == OnData }

  /** `on`: the triggers asserted; `high`: the clocks that are high; `loose`: triggers whose value is being
      walked; `n`: the samples so far. */
  ghost predicate Facts(g: Plan, s: Cursor, on: set<string>, high: set<string>, loose: set<string>, n: nat) {
    && Fit(g.c, s)
    && (forall p | p in g.clocks && ClockOf(g.c, p).Some? :: LevelIs(g, s, p, p in high))
    && (forall t | t in g.trigs && Valued(t) && t.name !in loose :: ValueIs(s, t, t.name in on))
    && LabelsBelow(s.labels, n)
    && (n > 0 ==> exists e :: e in s.events && e.Sample?)
  }

  predicate LevelIs(g: Plan, s: Cursor, p: string, up: bool)
    requires ClockOf(g.c, p).Some?
  {
    ClockOf(g.c, p).value in s.level && s.level[ClockOf(g.c, p).value] == up
  }

  predicate ValueIs(s: Cursor, t: Trig, up: bool) { t.name in s.vals && s.vals[t.name] == Num(if up then t.ones else 0) }

  predicate SameValues(g: Plan, s: Cursor, r: Cursor, but: set<string>) {
    forall t | t in g.trigs && Valued(t) && t.name !in but && t.name in s.vals :: t.name in r.vals && r.vals[t.name] == s.vals[t.name]
  }

  lemma FactsKept(g: Plan, s: Cursor, r: Cursor, on: set<string>, high: set<string>, loose: set<string>, n: nat)
    requires Facts(g, s, on, high, loose, n) && Fit(g.c, r) && s.events <= r.events && r.level == s.level && r.labels == s.labels
    requires SameValues(g, s, r, loose)
    ensures Facts(g, r, on, high, loose, n)
  {
    hide Fit, ClockOf;
    assert forall e | e in s.events :: e in r.events;
  }

  lemma FactsSampled(g: Plan, s: Cursor, r: Cursor, on: set<string>, high: set<string>, loose: set<string>, n: nat)
    requires Facts(g, s, on, high, loose, n) && Fit(g.c, r) && r.level == s.level && r.vals == s.vals
    requires LabelsBelow(r.labels, n + 1) && exists e :: e in r.events && e.Sample?
    ensures Facts(g, r, on, high, loose, n + 1)
  {
    hide Fit, ClockOf, LabelsBelow;
  }

  /** The same of the clocks in both sets. */
  predicate Matches(clocks: seq<string>, a: set<string>, b: set<string>) { forall p | p in clocks :: p in a <==> p in b }

  lemma MatchToggled(clocks: seq<string>, a: set<string>, b: set<string>, p: string, up: bool)
    requires Matches(clocks, a, b)
    ensures Matches(clocks, Toggled(a, p, up), Toggled(b, p, up))
  {}

  lemma MatchOther(clocks: seq<string>, a: set<string>, b: set<string>, p: string, up: bool)
    requires Matches(clocks, a, b)
    ensures p !in clocks ==> Matches(clocks, a, Toggled(b, p, up))
  {}

  lemma RiseFall(high: set<string>, p: string)
    ensures p in Toggled(high, p, true) && (p !in high ==> Toggled(Toggled(high, p, true), p, false) == high)
  {}

  lemma ToggledOnly(p: string)
    ensures Toggled({}, p, true) == {p} && Toggled({p}, p, false) == {}
  {}

  lemma OtherToggled(on: set<string>, p: string, q: string, up: bool)
    ensures p != q ==> (q in Toggled(on, p, up) <==> q in on)
  {}

  lemma MatchIn(clocks: seq<string>, a: set<string>, b: set<string>, p: string)
    requires Matches(clocks, a, b) && p in clocks
    ensures p in a <==> p in b
  {}

  function Toggled(high: set<string>, p: string, up: bool): set<string> { if up then high + {p} else high - {p} }

  lemma FactsEdge(g: Plan, s: Cursor, r: Cursor, on: set<string>, high: set<string>, loose: set<string>, n: nat, p: string, up: bool)
    requires PlanOk(g) && Facts(g, s, on, high, loose, n) && Fit(g.c, r) && s.events <= r.events && r.labels == s.labels && r.vals == s.vals
    requires p in g.clocks && ClockOf(g.c, p).Some? && r.level == s.level[ClockOf(g.c, p).value := up]
    ensures Facts(g, r, on, Toggled(high, p, up), loose, n)
  {
    hide Fit, PlanOk, LabelsBelow;
    LevelsAfter(g, s, r, high, p, up);
    hide LevelIs, ClockOf;
    assert forall e | e in s.events :: e in r.events;
  }

  lemma LevelsAfter(g: Plan, s: Cursor, r: Cursor, high: set<string>, p: string, up: bool)
    requires PlanOk(g) && forall q | q in g.clocks && ClockOf(g.c, q).Some? :: LevelIs(g, s, q, q in high)
    requires p in g.clocks && ClockOf(g.c, p).Some? && r.level == s.level[ClockOf(g.c, p).value := up]
    ensures forall q | q in g.clocks && ClockOf(g.c, q).Some? :: LevelIs(g, r, q, q in Toggled(high, p, up))
  {
    ClockIs(g, p);
    hide ClockOf, PlanOk;
  }

  /** A port of a trigger takes another value: the trigger's, or one being walked. */
  lemma FactsValue(g: Plan, s: Cursor, r: Cursor, on: set<string>, high: set<string>, loose: set<string>, n: nat, t: Trig, up: bool)
    requires PlanOk(g) && Facts(g, s, on, high, loose, n) && Fit(g.c, r) && s.events <= r.events && r.level == s.level && r.labels == s.labels
    requires t in g.trigs && Valued(t) && r.vals == s.vals[t.name := Num(if up then t.ones else 0)]
    ensures Facts(g, r, Toggled(on, t.name, up), high, loose, n)
  {
    hide Fit, PlanOk, LabelsBelow, ClockOf;
    ValuesAfter(g, s, r, on, loose, t, up);
    hide ValueIs;
    assert forall e | e in s.events :: e in r.events;
  }

  lemma ValuesAfter(g: Plan, s: Cursor, r: Cursor, on: set<string>, loose: set<string>, t: Trig, up: bool)
    requires PlanOk(g) && forall u | u in g.trigs && Valued(u) && u.name !in loose :: ValueIs(s, u, u.name in on)
    requires t in g.trigs && r.vals == s.vals[t.name := Num(if up then t.ones else 0)]
    ensures forall u | u in g.trigs && Valued(u) && u.name !in loose :: ValueIs(r, u, u.name in Toggled(on, t.name, up))
  {
    assert forall u | u in g.trigs && u.name == t.name :: u == t;
    hide PlanOk;
  }

  /** Which triggers are on does not matter to what has no value of its own. */
  lemma FactsOn(g: Plan, s: Cursor, on: set<string>, high: set<string>, loose: set<string>, n: nat, t: Trig, up: bool)
    requires PlanOk(g) && Facts(g, s, on, high, loose, n) && t in g.trigs && !Valued(t)
    ensures Facts(g, s, Toggled(on, t.name, up), high, loose, n)
  {
    assert forall u | u in g.trigs && u.name == t.name :: u == t;
    hide Fit, ClockOf, PlanOk;
  }

  lemma FactsLoose(g: Plan, s: Cursor, on: set<string>, high: set<string>, n: nat, t: Trig)
    requires PlanOk(g) && Facts(g, s, on, high, {t.name}, n) && t in g.trigs && ValueIs(s, t, t.name in on)
    ensures Facts(g, s, on, high, {}, n)
  {
    assert forall u | u in g.trigs && u.name == t.name :: u == t;
    hide Fit, ClockOf, PlanOk;
  }

  lemma StartFacts(c: Params, ts: seq<Trig>)
    requires PlanOk(PlanFor(c, ts)) && Inv(c, Start(c))
    ensures Facts(PlanFor(c, ts), Start(c), {}, {}, {}, 0)
  {
    var g, s := PlanFor(c, ts), Start(c);
    forall p | p in g.clocks && ClockOf(c, p).Some?
      ensures LevelIs(g, s, p, false)
    {
      ClockIs(g, p);
    }
    forall t | t in ts && Valued(t)
      ensures ValueIs(s, t, false)
    {
      StartValue(g, t);
    }
    hide PlanOk, Inv, ClockOf, LevelIs, ValueIs;
    assert Fit(c, s);
  }

  lemma StartValue(g: Plan, t: Trig)
    requires PlanOk(g) && t in g.trigs && Valued(t)
    ensures ValueIs(Start(g.c), t, false)
  {
    PortsAre(g.c.m.bits, In, {});
    PortBitsIn(g.c.m.bits, In, t.name, Plain);
    assert InBits(g.c.m, t.name)[0] in InBits(g.c.m, t.name);
  }

  lemma SampledFacts(g: Plan, s: Cursor, on: set<string>, high: set<string>, loose: set<string>, n: nat, tag: string, what: string)
    requires Facts(g, s, on, high, loose, n) && !s.open && IsLabel(tag) && IsLabel(what)
    ensures Inv(g.c, s)
    ensures var d := SampleDone(g.c, s, Some(tag + "." + what + "." + Decimal.Dec(n)));
      d.Some? && Facts(g, d.value, on, high, loose, n + 1) && d.value.open == s.open
  {
    var l := tag + "." + what + "." + Decimal.Dec(n);
    hide IsLabel, Decimal.Dec, SampleDone, Inv, LevelIs, ValueIs;
    NewLabel(s.labels, n, tag, what);
    hide LabelsBelow;
    SampleWorks(g.c, s, l);
    FactsSampled(g, s, SampleDone(g.c, s, Some(l)).value, on, high, loose, n);
  }

  lemma EdgeFacts(g: Plan, s: Cursor, on: set<string>, high: set<string>, loose: set<string>, n: nat, p: string, up: bool)
    requires PlanOk(g) && Facts(g, s, on, high, loose, n) && p in g.clocks && (p in high) != up
    ensures Inv(g.c, s)
    ensures ClockOf(g.c, p).None? ==> EdgeDone(g.c, s, p, up).None?
    ensures ClockOf(g.c, p).Some? ==> var d := EdgeDone(g.c, s, p, up);
      && d.Some? && Facts(g, d.value, on, Toggled(high, p, up), loose, n) && d.value.open == s.open
      && (s.open ==> d.value.group == s.group + 1 && Taken(g.c, d.value) <= Taken(g.c, s))
  {
    hide PlanOk, ClockOf, Taken, Inv, LabelsBelow, ValueIs;
    if ClockOf(g.c, p).None? { return; }
    assert LevelIs(g, s, p, p in high);
    hide EdgeDone;
    EdgeWorks(g.c, s, p, up);
    hide Facts;
    FactsEdge(g, s, EdgeDone(g.c, s, p, up).value, on, high, loose, n, p, up);
  }

  // ---- what a trigger's call does --------------------------------------------------------------------

  lemma TrigIs(g: Plan, t: Trig)
    requires PlanOk(g) && t in g.trigs
    ensures t.kind == OnClock <==> t.name in g.clocks
    ensures IsLabel(t.name)
    ensures t.kind == OnAsync ==> t.ones == 1 && |InBits(g.c.m, t.name)| == 1 && Changing(g.c.m, t.name)
    ensures t.kind == OnData ==> InBits(g.c.m, t.name) != [] && !Changing(g.c.m, t.name) && t.ones == Pow2(|InBits(g.c.m, t.name)|) - 1
  {
    PortsAre(g.c.m.bits, In, {});
    if t.kind == OnGlbl {
      GlblName(t.name);
      if t.name in g.clocks { ClockName(g, t.name); }
    } else if t.kind == OnClock {
      ClockName(g, t.name);
    } else {
      PortBitsIn(g.c.m.bits, In, t.name, Plain);
      assert InBits(g.c.m, t.name)[0] in InBits(g.c.m, t.name);
    }
  }

  lemma GlblName(name: string)
    requires GlblOf(name).Some?
    ensures IsLabel(name) && !Identifier(name)
  {
    assert name[4] == '.';
  }

  lemma ClockName(g: Plan, p: string)
    requires PlanOk(g) && p in g.clocks
    ensures Identifier(p) && IsLabel(p)
  {
    PortsAre(g.c.m.bits, Clk, {});
    PortBitsIn(g.c.m.bits, Clk, p, Plain);
    assert PortBits(g.c.m.bits, Clk, p, Plain)[0] in PortBits(g.c.m.bits, Clk, p, Plain);
  }

  lemma InputName(g: Plan, p: string)
    requires PlanOk(g) && (p in g.data || p in g.asyncs)
    ensures IsLabel(p) && InBits(g.c.m, p) != [] && p !in NamesOf(g.trigs)
    ensures (p in g.data ==> !Changing(g.c.m, p)) && (p in g.asyncs ==> Changing(g.c.m, p))
  {
    var ins := Ports(g.c.m.bits, In, {});
    PortsAre(g.c.m.bits, In, {});
    OthersAre(g.c.m, ins, NamesOf(g.trigs), true);
    OthersAre(g.c.m, ins, NamesOf(g.trigs), false);
    PortBitsIn(g.c.m.bits, In, p, Plain);
    assert InBits(g.c.m, p)[0] in InBits(g.c.m, p);
  }

  lemma InputLabel(g: Plan, p: string)
    requires PlanOk(g) && p in g.asyncs
    ensures IsLabel(p)
  {
    InputName(g, p);
  }

  lemma DataDistinct(g: Plan)
    requires PlanOk(g)
    ensures DistinctNames(g.data)
  {
    PortsAre(g.c.m.bits, In, {});
    OthersAre(g.c.m, Ports(g.c.m.bits, In, {}), NamesOf(g.trigs), false);
  }

  lemma DrivenGlbl(g: Plan, s: Cursor, on: set<string>, high: set<string>, n: nat, t: Trig, up: bool)
    requires PlanOk(g) && Facts(g, s, on, high, {}, n) && t in g.trigs && t.kind == OnGlbl
    ensures Inv(g.c, s)
    ensures var r := GlblDone(g.c, s, t.sig, up);
      && Facts(g, r, Toggled(on, t.name, up), high, {}, n) && r.open == s.open
      && (s.open ==> r.group == s.group + 1 && Taken(g.c, r) <= Taken(g.c, s))
  {
    hide PlanOk, Taken, GlblDone, Facts, Inv;
    FactsFit(g, s, on, high, {}, n);
    GlblWorks(g.c, s, t.sig, up);
    var r := GlblDone(g.c, s, t.sig, up);
    FactsKeptAll(g, s, r, on, high, {}, n);
    FactsOn(g, r, on, high, {}, n, t, up);
  }

  lemma FactsKeptAll(g: Plan, s: Cursor, r: Cursor, on: set<string>, high: set<string>, loose: set<string>, n: nat)
    requires Facts(g, s, on, high, loose, n) && Fit(g.c, r) && s.events <= r.events && r.level == s.level && r.labels == s.labels
    requires r.vals == s.vals
    ensures Facts(g, r, on, high, loose, n)
  {
    hide Facts, Fit;
    FactsKept(g, s, r, on, high, loose, n);
  }

  lemma DrivenAsync(g: Plan, s: Cursor, on: set<string>, high: set<string>, n: nat, t: Trig, up: bool)
    requires PlanOk(g) && Facts(g, s, on, high, {}, n) && t in g.trigs && t.kind == OnAsync && (s.open ==> t.name !in Taken(g.c, s))
    ensures Inv(g.c, s)
    ensures var d := AsyncDone(g.c, s, Assign(t.name, Num(if up then 1 else 0)));
      && d.Some? && Facts(g, d.value, Toggled(on, t.name, up), high, {}, n) && d.value.open == s.open
      && (s.open ==> d.value.group == s.group + 1 && Taken(g.c, d.value) <= Taken(g.c, s) + {t.name})
  {
    var a := Assign(t.name, Num(if up then 1 else 0));
    TrigIs(g, t);
    assert BitsOf(a.value, 1).Some?;
    hide PlanOk, Taken, AsyncDone, Facts, InBits, BitsOf, Inv;
    FactsFit(g, s, on, high, {}, n);
    AsyncWorks(g.c, s, a);
    FactsValue(g, s, AsyncDone(g.c, s, a).value, on, high, {}, n, t, up);
  }

  lemma FactsFit(g: Plan, s: Cursor, on: set<string>, high: set<string>, loose: set<string>, n: nat)
    requires Facts(g, s, on, high, loose, n)
    ensures Fit(g.c, s)
  {}

  lemma DataSettles(g: Plan, s: Cursor, p: string, v: int)
    requires WellFormed(g.c.m) && InBits(g.c.m, p) != [] && !Changing(g.c.m, p) && 0 <= v < Pow2(|InBits(g.c.m, p)|)
    ensures Settles(g.c, s, Assign(p, Num(v)))
  {
    var x := InBits(g.c.m, p)[0];
    PortBitsIn(g.c.m.bits, In, p, Plain);
    assert x in InBits(g.c.m, p);
    ClassOf(g.c.m.bits, x);
  }

  /** The class of a port is that of a bit of it. */
  lemma {:induction false} ClassOf(bits: seq<Bit>, x: Bit)
    requires x in bits && forall a, b | a in bits && b in bits && a.port == b.port :: a.cls == b.cls
    ensures ClsOf(bits, x.port) == Some(x.cls)
  {
    if bits[0].port != x.port {
      assert x in bits[1..] && forall a | a in bits[1..] :: a in bits;
      ClassOf(bits[1..], x);
    } else {
      assert bits[0] in bits;
    }
  }

  lemma DrivenData(g: Plan, s: Cursor, on: set<string>, high: set<string>, n: nat, t: Trig, up: bool)
    requires PlanOk(g) && Facts(g, s, on, high, {}, n) && t in g.trigs && t.kind == OnData && (t.name in on) != up
    requires s.open ==> t.name !in Taken(g.c, s)
    ensures Inv(g.c, s)
    ensures var d := SetDone(g.c, s, [Assign(t.name, Num(if up then t.ones else 0))]);
      && d.Some? && Facts(g, d.value, Toggled(on, t.name, up), high, {}, n) && d.value.open == s.open
      && (s.open ==> d.value.group == s.group + 1 && Taken(g.c, d.value) <= Taken(g.c, s) + {t.name})
  {
    var v := if up then t.ones else 0;
    var a := Assign(t.name, Num(v));
    TrigIs(g, t);
    assert t.ones >= 1 by { PowTwo(|InBits(g.c.m, t.name)|); }
    assert WellFormed(g.c.m);
    assert !Holds(s, a);
    hide PlanOk, Taken, SetDone, InBits, BitsOf, WellFormed, Holds, Inv;
    FactsFit(g, s, on, high, {}, n);
    DataSettles(g, s, t.name, v);
    hide Facts;
    if s.open {
      SetInWorks(g.c, s, a);
    } else {
      SetWorks(g.c, s, [a]);
      assert Assigned(s.vals, [a]) == s.vals[t.name := Num(v)] by { OneAssigned(s.vals, a); }
    }
    FactsValue(g, s, SetDone(g.c, s, [a]).value, on, high, {}, n, t, up);
  }

  lemma OneAssigned(vals: map<string, Value>, a: Assign)
    ensures Assigned(vals, [a]) == vals[a.port := a.value]
  {
    assert [a][1..] == [];
  }

  lemma PowTwo(w: nat)
    ensures w > 0 ==> Pow2(w) >= 2
  {}

  // ---- what the other calls do -----------------------------------------------------------------------

  lemma WaitFacts(g: Plan, s: Cursor, on: set<string>, high: set<string>, loose: set<string>, n: nat, ps: int)
    requires Facts(g, s, on, high, loose, n) && !s.open && ps >= 0
    ensures Inv(g.c, s)
    ensures var d := WaitDone(s, ps); d.Some? && Facts(g, d.value, on, high, loose, n) && !d.value.open
  {
    hide Facts, Inv;
    FactsFit(g, s, on, high, loose, n);
    WaitWorks(g.c, s, ps);
    FactsKeptAll(g, s, WaitDone(s, ps).value, on, high, loose, n);
  }

  lemma OpenFacts(g: Plan, s: Cursor, on: set<string>, high: set<string>, loose: set<string>, n: nat)
    requires Facts(g, s, on, high, loose, n) && !s.open
    ensures Inv(g.c, s)
    ensures var d := Opened(g.c, s);
      d.Some? && Facts(g, d.value, on, high, loose, n) && d.value.open && d.value.group == 0 && Taken(g.c, d.value) == {}
  {
    hide Facts, Inv, Opened, Taken;
    FactsFit(g, s, on, high, loose, n);
    OpenWorks(g.c, s);
    FactsKeptAll(g, s, Opened(g.c, s).value, on, high, loose, n);
  }

  lemma CloseFacts(g: Plan, s: Cursor, on: set<string>, high: set<string>, loose: set<string>, n: nat)
    requires Facts(g, s, on, high, loose, n) && s.open && s.group >= 2
    ensures Inv(g.c, s)
    ensures var d := Closed(g.c, s); d.Some? && Facts(g, d.value, on, high, loose, n) && !d.value.open
  {
    hide Facts, Inv, Closed;
    FactsFit(g, s, on, high, loose, n);
    CloseWorks(g.c, s);
    FactsKeptAll(g, s, Closed(g.c, s).value, on, high, loose, n);
  }

  /** Values drawn for data ports that are no triggers. */
  predicate Draws(g: Plan, args: seq<Assign>) {
    && (forall i :: 0 <= i < |args| ==> args[i].port in g.data && args[i].value.Num? && 0 <= args[i].value.n < Pow2(|InBits(g.c.m, args[i].port)|))
    && DistinctPorts(args)
  }

  /** Those of the first data ports. */
  predicate DrawsFor(g: Plan, args: seq<Assign>, i: nat) {
    i <= |g.data| && |args| == i && Draws(g, args) && forall k :: 0 <= k < i ==> args[k].port == g.data[k]
  }

  lemma DrawsNone(g: Plan)
    ensures DrawsFor(g, [], 0)
  {}

  lemma DrawsMore(g: Plan, args: seq<Assign>, i: nat, v: int)
    requires DrawsFor(g, args, i) && i < |g.data| && DistinctNames(g.data) && 0 <= v < Pow2(|InBits(g.c.m, g.data[i])|)
    ensures DrawsFor(g, args + [Assign(g.data[i], Num(v))], i + 1)
  {
    hide InBits, Pow2;
  }

  lemma {:induction false} AssignedOther(vals: map<string, Value>, args: seq<Assign>, p: string)
    requires forall a | a in args :: a.port != p
    ensures p in vals ==> p in Assigned(vals, args) && Assigned(vals, args)[p] == vals[p]
    decreases |args|
  {
    if args != [] {
      assert args[0] in args && forall a | a in args[1..] :: a in args;
      AssignedOther(vals[args[0].port := args[0].value], args[1..], p);
    }
  }

  lemma DrawSettles(g: Plan, s: Cursor, a: Assign)
    requires PlanOk(g) && a.port in g.data && a.value.Num? && 0 <= a.value.n < Pow2(|InBits(g.c.m, a.port)|)
    ensures Settles(g.c, s, a) && forall t | t in g.trigs :: t.name != a.port
  {
    assert WellFormed(g.c.m);
    hide WellFormed, InBits, Settles, Changing;
    InputName(g, a.port);
    assert forall t | t in g.trigs :: t.name in NamesOf(g.trigs);
    DataSettles(g, s, a.port, a.value.n);
  }

  lemma DrawnFacts(g: Plan, s: Cursor, on: set<string>, high: set<string>, loose: set<string>, n: nat, args: seq<Assign>)
    requires PlanOk(g) && Facts(g, s, on, high, loose, n) && !s.open && Draws(g, args)
    ensures Inv(g.c, s)
    ensures var d := SetDone(g.c, s, args); d.Some? && Facts(g, d.value, on, high, loose, n) && !d.value.open
  {
    hide Facts, Inv, SetDone, InBits, Settles, PlanOk;
    FactsFit(g, s, on, high, loose, n);
    forall a | a in args
      ensures Settles(g.c, s, a) && forall t | t in g.trigs :: t.name != a.port
    {
      DrawSettles(g, s, a);
    }
    SetWorks(g.c, s, args);
    var r := SetDone(g.c, s, args).value;
    forall t | t in g.trigs && t.name in s.vals
      ensures t.name in r.vals && r.vals[t.name] == s.vals[t.name]
    {
      AssignedOther(s.vals, args, t.name);
    }
    FactsKept(g, s, r, on, high, loose, n);
  }

  /** The clocks that are not held. */
  function Free(clocks: seq<string>, held: set<string>): seq<string> {
    if clocks == [] then [] else (if clocks[0] in held then [] else [clocks[0]]) + Free(clocks[1..], held)
  }

  lemma {:induction false} FreeAre(clocks: seq<string>, held: set<string>)
    ensures forall p :: p in Free(clocks, held) <==> p in clocks && p !in held
  {
    if clocks != [] {
      FreeAre(clocks[1..], held);
      assert forall p :: p in clocks <==> p == clocks[0] || p in clocks[1..];
    }
  }

  lemma PowAtLeast(w: nat)
    ensures Pow2(w) > 0
  {}

  lemma IndTagOk(g: Plan, t: Trig, k: nat)
    requires PlanOk(g) && t in g.trigs
    ensures IsLabel(IndTag(t, k))
  {
    TrigIs(g, t);
    assert IsLabel("ind.");
    LabelNumber(k);
    hide IsLabel, PlanOk, Decimal.Dec;
    LabelJoin("ind.", t.name);
    LabelDot("ind." + t.name, Decimal.Dec(k));
  }

  lemma CoinTagOk(g: Plan, t: Trig, p: string)
    requires PlanOk(g) && t in g.trigs && p in g.clocks
    ensures IsLabel(CoinTag(t, p))
  {
    TrigIs(g, t);
    ClockName(g, p);
    assert IsLabel("coin.");
    hide IsLabel, PlanOk;
    LabelJoin("coin.", t.name);
    LabelDot("coin." + t.name, p);
  }

  lemma NotOn(g: Plan, t: Trig, p: string)
    requires PlanOk(g) && t in g.trigs && t.kind != OnClock && p in g.clocks
    ensures t.name != p
  {
    TrigIs(g, t);
  }

  lemma PairTags(g: Plan, t: Trig, u: Trig)
    requires PlanOk(g) && t in g.trigs && u in g.trigs
    ensures IsLabel(PairTag(t, u, "overlap")) && IsLabel(PairTag(t, u, "nested")) && IsLabel(PairTag(t, u, "coincident"))
  {
    TrigIs(g, t);
    TrigIs(g, u);
    assert IsLabel("pair.") && IsLabel("overlap") && IsLabel("nested") && IsLabel("coincident");
    hide IsLabel, PlanOk;
    LabelJoin("pair.", t.name);
    LabelDot("pair." + t.name, u.name);
    LabelDot("pair." + t.name + "." + u.name, "overlap");
    LabelDot("pair." + t.name + "." + u.name, "nested");
    LabelDot("pair." + t.name + "." + u.name, "coincident");
  }

  lemma WalkTags(t: Trig, k: nat)
    requires IsLabel(t.name)
    ensures IsLabel(WalkTag(t, "one", k)) && IsLabel(WalkTag(t, "zero", k))
  {
    assert IsLabel("walk.") && IsLabel("one") && IsLabel("zero");
    LabelNumber(k);
    hide IsLabel, Decimal.Dec;
    LabelJoin("walk.", t.name);
    LabelDot("walk." + t.name, "one");
    LabelDot("walk." + t.name, "zero");
    LabelJoin("walk." + t.name + "." + "one", Decimal.Dec(k));
    LabelJoin("walk." + t.name + "." + "zero", Decimal.Dec(k));
  }

  lemma AsyncTagOk(g: Plan, t: Trig, q: string)
    requires PlanOk(g) && t in g.trigs && q in g.asyncs
    ensures IsLabel(AsyncTag(t, q)) && IsLabel(q)
  {
    TrigIs(g, t);
    InputName(g, q);
    assert IsLabel("async.");
    hide IsLabel, PlanOk;
    LabelJoin("async.", t.name);
    LabelDot("async." + t.name, q);
  }

  lemma InputsTagOk(k: nat)
    ensures IsLabel(InputsTag(k))
  {
    assert IsLabel("zcmp.");
    LabelNumber(k);
    hide IsLabel, Decimal.Dec;
    LabelJoin("zcmp.", Decimal.Dec(k));
  }

  lemma {:induction false} PowBelow(k: nat, w: nat)
    ensures k < w ==> 1 <= Pow2(k) <= Pow2(w) - 1
  {
    PowAtLeast(k);
    if k < w { PowBelow(k, w - 1); }
  }

  lemma FactsLooser(g: Plan, s: Cursor, on: set<string>, high: set<string>, n: nat, loose: set<string>)
    requires Facts(g, s, on, high, {}, n)
    ensures Facts(g, s, on, high, loose, n)
  {
    hide Fit, LabelsBelow, LevelIs, ValueIs;
  }

  lemma PutFacts(g: Plan, s: Cursor, on: set<string>, high: set<string>, loose: set<string>, n: nat, t: Trig, v: int)
    requires PlanOk(g) && Facts(g, s, on, high, loose, n) && !s.open && t in g.trigs && t.kind == OnData && t.name in loose && 0 <= v <= t.ones
    ensures Inv(g.c, s)
    ensures var d := SetDone(g.c, s, [Assign(t.name, Num(v))]);
      && d.Some? && Facts(g, d.value, on, high, loose, n) && !d.value.open && t.name in d.value.vals && d.value.vals[t.name] == Num(v)
  {
    var a := Assign(t.name, Num(v));
    TrigIs(g, t);
    assert WellFormed(g.c.m);
    hide PlanOk, SetDone, InBits, WellFormed, Inv, Settles;
    FactsFit(g, s, on, high, loose, n);
    DataSettles(g, s, t.name, v);
    hide Facts;
    SetWorks(g.c, s, [a]);
    OneAssigned(s.vals, a);
    FactsKept(g, s, SetDone(g.c, s, [a]).value, on, high, loose, n);
  }

  lemma PulseFacts(g: Plan, s: Cursor, on: set<string>, high: set<string>, loose: set<string>, n: nat, q: string, up: bool)
    requires PlanOk(g) && Facts(g, s, on, high, loose, n) && !s.open && q in g.asyncs && OneBit(g, q)
    ensures Inv(g.c, s)
    ensures var d := AsyncDone(g.c, s, Assign(q, Num(if up then 1 else 0)));
      d.Some? && Facts(g, d.value, on, high, loose, n) && !d.value.open
  {
    var a := Assign(q, Num(if up then 1 else 0));
    InputName(g, q);
    assert BitsOf(a.value, 1).Some?;
    assert forall t | t in g.trigs :: t.name in NamesOf(g.trigs);
    hide PlanOk, AsyncDone, Facts, InBits, BitsOf, Inv;
    FactsFit(g, s, on, high, loose, n);
    AsyncWorks(g.c, s, a);
    FactsKept(g, s, AsyncDone(g.c, s, a).value, on, high, loose, n);
  }

  lemma NothingHeld(g: Plan, held: set<string>, on: set<string>)
    requires Matches(g.clocks, held, on) && on == {}
    ensures forall p | p in g.clocks :: p !in held
  {}

  lemma PlanNumbered(g: Plan)
    requires PlanOk(g)
    ensures Numbered(g.c.m)
  {}

  // ---- the whole stimulus ----------------------------------------------------------------------------

  /** What a model and its triggers must be: the times of the builder fit, every trigger is resolved and
      none is there twice, every clock port is a single bit, and with triggers every async and gate port. */
  ghost predicate Buildable(m: DutMap, triggers: seq<string>) {
    && TimesOk(m, SETTLE, PERIOD, MIN_SEP, MIN_SEP)
    && (forall t | t in triggers :: Resolve(m, t).Some?) && DistinctNames(triggers)
    && (forall p | p in Ports(m.bits, Clk, {}) :: |PortBits(m.bits, Clk, p, Plain)| == 1)
    && (triggers != [] ==> forall p | p in Ports(m.bits, In, {}) && Changing(m, p) :: |InBits(m, p)| == 1)
  }

  /** The constructor's list of triggers. */
  method Resolved(m: DutMap, triggers: seq<string>) returns (ts: Option<seq<Trig>>)
    ensures ts.Some? <==> forall t | t in triggers :: Resolve(m, t).Some?
    ensures ts.Some? ==> |ts.value| == |triggers| && forall i :: 0 <= i < |triggers| ==> Resolve(m, triggers[i]) == Some(ts.value[i])
  {
    hide Resolve;
    var out: seq<Trig> := [];
    for i := 0 to |triggers|
      invariant |out| == i && forall k :: 0 <= k < i ==> Resolve(m, triggers[k]) == Some(out[k])
    {
      var t := Resolve(m, triggers[i]);
      assert triggers[i] in triggers;
      if t.None? { return None; }
      out := out + [t.value];
    }
    ts := Some(out);
  }

  lemma ResolvedNames(m: DutMap, triggers: seq<string>, ts: seq<Trig>)
    requires |ts| == |triggers| && forall i :: 0 <= i < |triggers| ==> Resolve(m, triggers[i]) == Some(ts[i])
    ensures forall i :: 0 <= i < |ts| ==> ts[i].name == triggers[i]
    ensures forall t | t in ts :: Resolve(m, t.name) == Some(t)
  {
    forall i | 0 <= i < |ts|
      ensures ts[i].name == triggers[i]
    {
      ResolvedName(m, triggers[i]);
    }
    hide Resolve;
  }

  lemma ResolvedName(m: DutMap, name: string)
    ensures Resolve(m, name).Some? ==> Resolve(m, name).value.name == name
  {}

  /** Ports that may not change alone fail as triggers and beside triggers. */
  lemma AsyncsOneBit(c: Params, ts: seq<Trig>, triggers: seq<string>)
    requires PlanOk(PlanFor(c, ts)) && |ts| == |triggers| && forall i :: 0 <= i < |ts| ==> ts[i].name == triggers[i]
    ensures (forall q | q in PlanFor(c, ts).asyncs :: OneBit(PlanFor(c, ts), q))
            <==> forall p | p in Ports(c.m.bits, In, {}) && Changing(c.m, p) :: |InBits(c.m, p)| == 1
  {
    var g, ins := PlanFor(c, ts), Ports(c.m.bits, In, {});
    OthersAre(c.m, ins, NamesOf(ts), true);
    forall p | p in ins && Changing(c.m, p) && p in NamesOf(ts)
      ensures |InBits(c.m, p)| == 1
    {
      var t :| t in ts && t.name == p;
      assert Resolve(c.m, p) == Some(t);
      if t.kind == OnClock { NoClockInput(g, p); }
      if t.kind == OnGlbl { InputIdentifier(g, p); GlblName(p); }
      TrigIs(g, t);
    }
  }

  lemma InputIdentifier(g: Plan, p: string)
    requires PlanOk(g) && p in Ports(g.c.m.bits, In, {})
    ensures Identifier(p)
  {
    PortsAre(g.c.m.bits, In, {});
    PortBitsIn(g.c.m.bits, In, p, Plain);
    assert InBits(g.c.m, p)[0] in InBits(g.c.m, p);
  }

  lemma NoClockInput(g: Plan, p: string)
    requires PlanOk(g) && p in Ports(g.c.m.bits, In, {})
    ensures p !in g.clocks
  {
    PortsAre(g.c.m.bits, In, {});
    PortsAre(g.c.m.bits, Clk, {});
    PortBitsIn(g.c.m.bits, In, p, Plain);
    PortBitsIn(g.c.m.bits, Clk, p, Plain);
    var a := InBits(g.c.m, p)[0];
    assert a in InBits(g.c.m, p);
    assert forall b | b in PortBits(g.c.m.bits, Clk, p, Plain) :: a.cls == b.cls;
    EmptyOr(PortBits(g.c.m.bits, Clk, p, Plain));
  }

  lemma EmptyOr<T>(s: seq<T>)
    ensures s == [] || exists x :: x in s
  {
    if s != [] { assert s[0] in s; }
  }

  lemma GuardOf(c: Params, s: Cursor)
    requires Inv(c, s) && !s.open && c.settle >= ROC_WIDTH + c.sep && !c.reject && c.illegal == []
    requires exists e :: e in s.events && e.Sample?
    ensures Guard(Finished(c, s)) <==> c.seed >= 0
  {
    FinishedBuilt(c, s);
    var v := Finished(c, s);
    assert forall e | e in s.events :: e in v.events && Emitted(U(c), e);
  }

  lemma BuildableIs(m: DutMap, triggers: seq<string>, c: Params, ts: seq<Trig>)
    requires c.m == m && PlanOk(PlanFor(c, ts)) && TimesOk(m, SETTLE, PERIOD, MIN_SEP, MIN_SEP)
    requires |ts| == |triggers| && forall i :: 0 <= i < |triggers| ==> Resolve(m, triggers[i]) == Some(ts[i]) && ts[i].name == triggers[i]
    ensures var g := PlanFor(c, ts);
      Buildable(m, triggers) <==>
      Narrow(g) && (forall i, j :: 0 <= i < j < |ts| ==> ts[i].name != ts[j].name) && (ts == [] || forall q | q in g.asyncs :: OneBit(g, q))
  {
    AsyncsOneBit(c, ts, triggers);
    hide Resolve, Changing, InBits, PortBits, PlanOk, TimesOk, OneBit, Ports;
    assert DistinctNames(triggers) <==> forall i, j :: 0 <= i < j < |ts| ==> ts[i].name != ts[j].name;
    NarrowIs(PlanFor(c, ts));
  }

  lemma NarrowIs(g: Plan)
    ensures Narrow(g) <==> forall p | p in g.clocks :: |PortBits(g.c.m.bits, Clk, p, Plain)| == 1
  {
    hide PortBits;
    assert forall p :: ClockOf(g.c, p).Some? <==> |PortBits(g.c.m.bits, Clk, p, Plain)| == 1;
  }
}
