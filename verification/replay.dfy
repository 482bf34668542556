/** `replay` (golden.py): the calls it makes on a model, and their relation to the predicted history. */
module Replay {
  import opened Wrap
  import opened Sorting
  import opened Stimulus
  import opened Validation
  import Validator
  import T = Testbench
  import G = Golden

  /** One call on the model; values are most significant bit first. */
  datatype Call =
    | SetInput(port: string, value: seq<Logic>)
    | ClockEdge(port: string, rise: bool)
    | GlblCall(sig: Signal, level: bool)
    | Outputs(name: string)

  /** The value of an input port, most significant bit first. */
  function PortValue(bits: seq<Logic>, pb: seq<Bit>): seq<Logic> {
    if pb == [] then [] else PortValue(bits, pb[1..]) + [if pb[0].bit < |bits| then bits[pb[0].bit] else LX]
  }

  /** `in_ports`: the plain input ports, in map order. */
  function PortsOf(ins: seq<Bit>, seen: set<string>): seq<string>
    decreases ins
  {
    if ins == [] then []
    else if ins[0].role == Plain && ins[0].port !in seen then [ins[0].port] + PortsOf(ins[1..], seen + {ins[0].port})
    else PortsOf(ins[1..], seen)
  }

  function InPorts(m: DutMap): seq<string> { PortsOf(Of(m.bits, In), {}) }

  function ValueOf(m: DutMap, bits: seq<Logic>, p: string): seq<Logic> { PortValue(bits, PortBits(m.bits, In, p, Plain)) }

  /** One call for every port whose value changed, in map order. */
  function Changes(m: DutMap, ports: seq<string>, before: seq<Logic>, after: seq<Logic>): seq<Call> {
    if ports == [] then [] else
    (if ValueOf(m, after, ports[0]) != ValueOf(m, before, ports[0]) then [SetInput(ports[0], ValueOf(m, after, ports[0]))] else [])
    + Changes(m, ports[1..], before, after)
  }

  function ClockPort(m: DutMap, clk: int): string {
    var clks := Of(m.bits, Clk);
    if 0 <= clk < |clks| then clks[clk].port else ""
  }

  /** The call one observation is, from the input values before it. */
  function CallsFor(m: DutMap, o: T.Obs, bits: seq<Logic>): seq<Call> {
    match o
    case Inputs(_, after) => Changes(m, InPorts(m), bits, after)
    case Clocked(_, clk, rise) => [ClockEdge(ClockPort(m, clk), rise)]
    case Global(_, sig, level) => [GlblCall(sig, level)]
    case Sampled(_, name) => [Outputs(name)]
    case Release => [GlblCall(GSR, false)]
  }

  function BitsAfter(bits: seq<Logic>, log: seq<T.Obs>): seq<Logic>
    decreases log
  {
    if log == [] then bits else BitsAfter(if log[0].Inputs? then log[0].bits else bits, log[1..])
  }

  /** The calls a history is. */
  function CallsOf(m: DutMap, log: seq<T.Obs>, bits: seq<Logic>): seq<Call>
    decreases log
  {
    if log == [] then []
    else CallsFor(m, log[0], bits) + CallsOf(m, log[1..], if log[0].Inputs? then log[0].bits else bits)
  }

  /** A model takes no x or z. */
  predicate Defined(c: Call) { c.SetInput? ==> forall x | x in c.value :: x == L0 || x == L1 }

  predicate AllDefined(cs: seq<Call>) { forall c | c in cs :: Defined(c) }

  lemma {:induction false} CallsJoin(m: DutMap, a: seq<T.Obs>, b: seq<T.Obs>, bits: seq<Logic>)
    ensures CallsOf(m, a + b, bits) == CallsOf(m, a, bits) + CallsOf(m, b, BitsAfter(bits, a))
    decreases a
  {
    hide CallsFor;
    if a == [] {
      assert a + b == b;
    } else {
      assert (a + b)[1..] == a[1..] + b && (a + b)[0] == a[0];
      var next := if a[0].Inputs? then a[0].bits else bits;
      CallsJoin(m, a[1..], b, next);
      var h, x, y := CallsFor(m, a[0], bits), CallsOf(m, a[1..], next), CallsOf(m, b, BitsAfter(bits, a));
      assert h + (x + y) == h + x + y;
    }
  }

  // ---- the steps of the loop -------------------------------------------------------------------------

  /** `model.set_input` for every port that changed; None when a value has x or z. */
  method SetChanged(m: DutMap, before: seq<Logic>, after: seq<Logic>) returns (r: Option<seq<Call>>)
    ensures r.Some? <==> AllDefined(Changes(m, InPorts(m), before, after))
    ensures r.Some? ==> r.value == Changes(m, InPorts(m), before, after)
  {
    hide ValueOf, InPorts;
    var ports := InPorts(m);
    var calls: seq<Call> := [];
    assert ports[0..] == ports;
    for i := 0 to |ports|
      invariant calls + Changes(m, ports[i..], before, after) == Changes(m, ports, before, after) && AllDefined(calls)
    {
      ghost var was := calls;
      assert ports[i..][0] == ports[i] && ports[i..][1..] == ports[i + 1..];
      var v := ValueOf(m, after, ports[i]);
      if v != ValueOf(m, before, ports[i]) {
        var c := SetInput(ports[i], v);
        assert was + ([c] + Changes(m, ports[i + 1..], before, after)) == was + [c] + Changes(m, ports[i + 1..], before, after);
        if !Defined(c) {
          assert c in Changes(m, ports, before, after) by { assert (was + [c] + Changes(m, ports[i + 1..], before, after))[|was|] == c; }
          return None;
        }
        calls := calls + [c];
      } else {
        assert [] + Changes(m, ports[i + 1..], before, after) == Changes(m, ports[i + 1..], before, after);
      }
    }
    assert ports[|ports|..] == [];
    r := Some(calls);
  }

  /** The sets of a group, bit by bit. */
  method ApplyGroup(bits: seq<Logic>, group: seq<Event>) returns (after: seq<Logic>)
    ensures after == G.ApplySets(bits, group)
  {
    after := bits;
    assert group[0..] == group;
    for i := 0 to |group|
      invariant G.ApplySets(after, group[i..]) == G.ApplySets(bits, group)
    {
      assert group[i..][0] == group[i] && group[i..][1..] == group[i + 1..];
      if group[i].Set? {
        var e := group[i];
        ghost var was := after;
        assert e.value[..|e.value|] == e.value;
        for k := 0 to |e.value|
          invariant G.PutBits(after, e.lsb + k, e.value[..|e.value| - k]) == G.PutBits(was, e.lsb, e.value)
        {
          var rest := e.value[..|e.value| - k];
          assert rest[|rest| - 1] == e.value[|e.value| - 1 - k] && rest[..|rest| - 1] == e.value[..|e.value| - (k + 1)];
          if 0 <= e.lsb + k < |after| { after := after[e.lsb + k := e.value[|e.value| - 1 - k]]; }
        }
        assert e.value[..0] == [];
      }
    }
    assert group[|group|..] == [];
  }

  /** The call of one event other than a set. */
  function OtherCalls(m: DutMap, e: Event): seq<Call> {
    if e.Edge? then [ClockEdge(ClockPort(m, e.clk), e.rise)]
    else if e.Glbl? then [GlblCall(e.sig, e.level)]
    else if e.Sample? then [Outputs(e.name)]
    else []
  }

  /** The calls of the events of a group other than sets. */
  method CallOthers(m: DutMap, group: seq<Event>, bits: seq<Logic>) returns (calls: seq<Call>)
    ensures calls == CallsOf(m, G.ShownAll(group), bits) && AllDefined(calls)
  {
    hide CallsOf, G.ShownAll, ClockPort;
    calls := [];
    OthersDone(m, group, bits);
    for i := 0 to |group|
      invariant calls + CallsOf(m, G.ShownAll(group[i..]), bits) == CallsOf(m, G.ShownAll(group), bits)
      invariant AllDefined(calls)
    {
      ghost var was, rest := calls, CallsOf(m, G.ShownAll(group[i + 1..]), bits);
      OtherStep(m, group, i, bits);
      if group[i].Edge? {
        calls := calls + [ClockEdge(ClockPort(m, group[i].clk), group[i].rise)];
      } else if group[i].Glbl? {
        calls := calls + [GlblCall(group[i].sig, group[i].level)];
      } else if group[i].Sample? {
        calls := calls + [Outputs(group[i].name)];
      }
      assert was + (OtherCalls(m, group[i]) + rest) == was + OtherCalls(m, group[i]) + rest;
    }
    OthersDone(m, group, bits);
    assert calls + [] == calls;
  }

  lemma OthersDone(m: DutMap, group: seq<Event>, bits: seq<Logic>)
    ensures group[0..] == group && CallsOf(m, G.ShownAll(group[|group|..]), bits) == []
    ensures [] + CallsOf(m, G.ShownAll(group), bits) == CallsOf(m, G.ShownAll(group), bits)
  {}

  lemma OtherStep(m: DutMap, group: seq<Event>, i: nat, bits: seq<Logic>)
    requires i < |group|
    ensures CallsOf(m, G.ShownAll(group[i..]), bits) == OtherCalls(m, group[i]) + CallsOf(m, G.ShownAll(group[i + 1..]), bits)
  {
    assert group[i..][0] == group[i] && group[i..][1..] == group[i + 1..];
    var s := G.Shown(group[i]);
    CallsJoin(m, s, G.ShownAll(group[i + 1..]), bits);
    if s != [] { assert s[1..] == []; }
  }

  lemma {:induction false} ShownKeepsBits(es: seq<Event>, bits: seq<Logic>)
    ensures BitsAfter(bits, G.ShownAll(es)) == bits
    decreases es
  {
    if es != [] {
      ShownKeepsBits(es[1..], bits);
      var s := G.Shown(es[0]);
      BitsJoin(s, G.ShownAll(es[1..]), bits);
      if s != [] { assert s[1..] == []; }
    }
  }

  lemma {:induction false} BitsJoin(a: seq<T.Obs>, b: seq<T.Obs>, bits: seq<Logic>)
    ensures BitsAfter(bits, a + b) == BitsAfter(BitsAfter(bits, a), b)
    decreases a
  {
    if a == [] {
      assert a + b == b;
    } else {
      assert (a + b)[1..] == a[1..] + b && (a + b)[0] == a[0];
      BitsJoin(a[1..], b, if a[0].Inputs? then a[0].bits else bits);
    }
  }

  /** The calls of one group. */
  function GroupOf(m: DutMap, group: seq<Event>, t: int, bits: seq<Logic>, released: bool): seq<Call> {
    var after := G.ApplySets(bits, group);
    (if !released && t >= ROC_WIDTH then [GlblCall(GSR, false)] else [])
    + Changes(m, InPorts(m), bits, after) + CallsOf(m, G.ShownAll(group), after)
  }

  lemma StepCalls(m: DutMap, group: seq<Event>, t: int, bits: seq<Logic>)
    ensures var after := G.ApplySets(bits, group);
            && CallsOf(m, G.Step(group, t, bits), bits) == Changes(m, InPorts(m), bits, after) + CallsOf(m, G.ShownAll(group), after)
            && BitsAfter(bits, G.Step(group, t, bits)) == after
  {
    hide G.ApplySets, G.ShownAll, InPorts;
    var after := G.ApplySets(bits, group);
    var a := if after != bits then [T.Inputs(t, after)] else [];
    CallsJoin(m, a, G.ShownAll(group), bits);
    BitsJoin(a, G.ShownAll(group), bits);
    ShownKeepsBits(group, after);
    if after != bits {
      assert a[1..] == [];
      assert Changes(m, InPorts(m), bits, after) + [] == Changes(m, InPorts(m), bits, after);
    } else {
      NoChanges(m, InPorts(m), bits);
    }
  }

  lemma {:induction false} NoChanges(m: DutMap, ports: seq<string>, bits: seq<Logic>)
    ensures Changes(m, ports, bits, bits) == []
  {
    if ports != [] { NoChanges(m, ports[1..], bits); }
  }

  lemma ReleaseCalls(m: DutMap, bits: seq<Logic>, now: bool)
    ensures var rel := if now then [T.Release] else [];
            CallsOf(m, rel, bits) == (if now then [GlblCall(GSR, false)] else []) && BitsAfter(bits, rel) == bits
  {
    assert [T.Release][1..] == [];
  }

  /** One round of the loop over the groups. */
  lemma GroupCalls(m: DutMap, es: seq<Event>, bits: seq<Logic>, released: bool)
    requires es != []
    ensures var n, t := G.GroupLen(es), es[0].t;
            CallsOf(m, G.Replayed(es, bits, released), bits) ==
            GroupOf(m, es[..n], t, bits, released)
            + CallsOf(m, G.Replayed(es[n..], G.ApplySets(bits, es[..n]), released || t >= ROC_WIDTH), G.ApplySets(bits, es[..n]))
  {
    hide G.ApplySets, G.ShownAll, InPorts, G.GroupLen, G.Step, CallsOf, BitsAfter, Changes;
    var n, t := G.GroupLen(es), es[0].t;
    var now, after := !released && t >= ROC_WIDTH, G.ApplySets(bits, es[..n]);
    var rel, step, more := if now then [T.Release] else [], G.Step(es[..n], t, bits), G.Replayed(es[n..], after, released || now);
    assert G.Replayed(es, bits, released) == rel + step + more;
    StepCalls(m, es[..n], t, bits);
    ReleaseCalls(m, bits, now);
    CallsJoin(m, rel + step, more, bits);
    CallsJoin(m, rel, step, bits);
    BitsJoin(rel, step, bits);
    var a, b, c := CallsOf(m, rel, bits), Changes(m, InPorts(m), bits, after), CallsOf(m, G.ShownAll(es[..n]), after);
    assert a + (b + c) == a + b + c;
  }

  lemma DefinedParts(a: seq<Call>, b: seq<Call>)
    ensures AllDefined(a + b) <==> AllDefined(a) && AllDefined(b)
  {
    forall c | c in a
      ensures c in a + b
    {}
    forall c | c in b
      ensures c in a + b
    {}
  }

  /** One group: the release, the changed ports, the other events. */
  method ReplayGroup(m: DutMap, group: seq<Event>, t: int, bits: seq<Logic>, released: bool) returns (r: Option<seq<Call>>, after: seq<Logic>)
    ensures after == G.ApplySets(bits, group)
    ensures var calls := GroupOf(m, group, t, bits, released); r == if AllDefined(calls) then Some(calls) else None
  {
    hide InPorts, G.ApplySets, G.ShownAll, Changes, CallsOf, AllDefined;
    after := ApplyGroup(bits, group);
    var others := CallOthers(m, group, after);
    var rel: seq<Call> := [];
    if !released && t >= ROC_WIDTH { rel := [GlblCall(GSR, false)]; }
    GlblDefined(rel);
    var changed := SetChanged(m, bits, after);
    DefinedParts(rel + Changes(m, InPorts(m), bits, after), others);
    DefinedParts(rel, Changes(m, InPorts(m), bits, after));
    r := if changed.None? then None else Some(rel + changed.value + others);
  }

  predicate Unmarked(v: Vec) { forall e | e in v.events :: !e.sim }

  /** `replay` after power-on with all inputs 0: the calls on the model, or None for a stimulus it
      refuses (events marked simultaneous, an error, or an x or z on a changing port). */
  method ReplayVec(v: Vec, m: DutMap) returns (r: Option<seq<Call>>)
    requires Numbered(m)
    ensures !(Unmarked(v) && ErrorFree(v, m)) ==> r == None
    ensures Unmarked(v) && ErrorFree(v, m) ==>
              v.header.nin >= 0 && ClocksOk(v) &&
              var calls := CallsOf(m, G.Predicted(v), G.Zeros(v.header.nin));
              r == if AllDefined(calls) then Some(calls) else None
  {
    hide ErrorFree, G.Expand, G.ApplySets, G.GroupLen, AllDefined, ClocksOk, GroupOf, CallsOf, G.Replayed, G.Zeros;
    if exists e :: e in v.events && e.sim { return None; }
    var report := Validator.Validate(v, m);
    if !report.Ok() { return None; }
    HeaderSizes(v, m);
    var es := G.Expand(v);
    var bits, released, calls := G.Zeros(v.header.nin), false, [];
    ghost var all := CallsOf(m, G.Replayed(es, bits, false), bits);
    DefinedNone();
    assert [] + all == all;
    while es != []
      invariant calls + CallsOf(m, G.Replayed(es, bits, released), bits) == all && AllDefined(calls)
      decreases |es|
    {
      var n, t := G.GroupLen(es), es[0].t;
      GroupCalls(m, es, bits, released);
      var one, after := ReplayGroup(m, es[..n], t, bits, released);
      ghost var g, more := GroupOf(m, es[..n], t, bits, released), CallsOf(m, G.Replayed(es[n..], after, released || t >= ROC_WIDTH), after);
      assert calls + (g + more) == calls + g + more;
      DefinedParts(calls + g, more);
      DefinedParts(calls, g);
      if one.None? { return None; }
      calls := calls + one.value;
      bits, es, released := after, es[n..], released || t >= ROC_WIDTH;
    }
    NothingLeft(m, bits, released);
    assert calls + [] == calls;
    r := Some(calls);
  }

  lemma NothingLeft(m: DutMap, bits: seq<Logic>, released: bool)
    ensures CallsOf(m, G.Replayed([], bits, released), bits) == []
  {}

  lemma DefinedNone()
    ensures AllDefined([])
  {}

  lemma GlblDefined(a: seq<Call>)
    requires a == [] || a == [GlblCall(GSR, false)]
    ensures AllDefined(a)
  {}

  lemma HeaderSizes(v: Vec, m: DutMap)
    requires Numbered(m) && ErrorFree(v, m)
    ensures ClocksOk(v) && v.header.nin >= 0
  {}
}
