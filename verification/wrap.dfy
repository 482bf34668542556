/** The bit map of a wrapped primitive (wrap.py): which port bit sits on which vector bit. */
module Wrap {

  datatype Option<T> = None | Some(value: T)

  datatype Direction = Input | Output | InOut

  datatype Class = ClockIn | Async | Gate | Data | Pad | Drp | ClockOut | Bidir

  datatype VecName = Clk | In | Out

  /** `Plain`: a port of its own; the others are the three roles of an inout port. */
  datatype Role = Plain | DriveEn | DriveVal | Obs

  datatype PortSpec = PortSpec(name: string, dir: Direction, width: int, cls: Class)

  datatype DutSpec = DutSpec(prim: string, cfg: string, ports: seq<PortSpec>, attrs: map<string, string>,
                             rawClockOut: bool, minEventGap: Option<int>)

  datatype Bit = Bit(vec: VecName, bit: nat, port: string, index: nat, cls: Class, role: Role)

  datatype DutMap = DutMap(prim: string, cfg: string, attrs: map<string, string>,
                           nclk: nat, nin: nat, nout: nat, bits: seq<Bit>, minEventGap: Option<int>)

  // ---- lookups -----------------------------------------------------------------------------------

  /** `of`: the bits of a vector, in order. */
  function Of(bits: seq<Bit>, v: VecName): seq<Bit> {
    if bits == [] then [] else (if bits[0].vec == v then [bits[0]] else []) + Of(bits[1..], v)
  }

  /** `port_bits`: the bits of a port with a role on a vector, least significant first. */
  function PortBits(bits: seq<Bit>, v: VecName, p: string, r: Role): seq<Bit> {
    if bits == [] then [] else
    (if Sits(bits[0], v, p, r) then [bits[0]] else []) + PortBits(bits[1..], v, p, r)
  }

  predicate Sits(b: Bit, v: VecName, p: string, r: Role) { b.vec == v && b.port == p && b.role == r }

  /** `cls_of`: the class of a port, or None when the map has no such port. */
  function ClsOf(bits: seq<Bit>, p: string): Option<Class> {
    if bits == [] then None else if bits[0].port == p then Some(bits[0].cls) else ClsOf(bits[1..], p)
  }

  // ---- what a map satisfies ----------------------------------------------------------------------

  /** `_check_map`: each vector's bits are numbered 0..n-1 in order. */
  predicate Numbered(m: DutMap) {
    && |Of(m.bits, Clk)| == m.nclk && |Of(m.bits, In)| == m.nin && |Of(m.bits, Out)| == m.nout
    && (forall k :: 0 <= k < m.nclk ==> Of(m.bits, Clk)[k].bit == k)
    && (forall k :: 0 <= k < m.nin ==> Of(m.bits, In)[k].bit == k)
    && (forall k :: 0 <= k < m.nout ==> Of(m.bits, Out)[k].bit == k)
  }

  /** Consecutive vector bits carrying consecutive bits of the port. */
  predicate Contiguous(pb: seq<Bit>) {
    forall k :: 0 <= k < |pb| ==> pb[k].bit == pb[0].bit + k && pb[k].index == k
  }

  /** A map as `build_map` makes it. */
  ghost predicate WellFormed(m: DutMap) {
    && Numbered(m)
    && (forall p, r {:trigger PortBits(m.bits, In, p, r)} :: Contiguous(PortBits(m.bits, In, p, r)))
    && (forall a, b | a in m.bits && b in m.bits && a.port == b.port :: a.cls == b.cls)
    && (forall b | b in m.bits && b.vec == In :: b.cls != ClockIn)
    && (forall b | b in m.bits && b.vec == Clk :: b.cls == ClockIn && b.role == Plain)
  }

  /** The class of an `in_vec` bit. */
  function InClass(m: DutMap, b: int): Class
    requires Numbered(m) && 0 <= b < m.nin
  {
    Of(m.bits, In)[b].cls
  }

  // ---- build_map -----------------------------------------------------------------------------------

  predicate ClassFits(d: Direction, c: Class) {
    match d
    case Input => c == ClockIn || c == Async || c == Gate || c == Data || c == Pad || c == Drp
    case Output => c == Data || c == ClockOut || c == Pad || c == Drp
    case InOut => c == Bidir
  }

  /** `_check_port`, the names seen so far excluded. */
  predicate PortOk(p: PortSpec, raw: bool) {
    ClassFits(p.dir, p.cls) && p.width >= 1 && (p.cls == ClockOut ==> raw)
  }

  predicate SpecOk(spec: DutSpec) {
    && (forall p | p in spec.ports :: PortOk(p, spec.rawClockOut))
    && (forall i, j :: 0 <= i < j < |spec.ports| ==> spec.ports[i].name != spec.ports[j].name)
  }

  /** The bits of one port (with one role) from vector bit `at` on. */
  function Block(v: VecName, at: nat, p: PortSpec, r: Role): (bits: seq<Bit>)
    ensures |bits| == if p.width > 0 then p.width else 0
  {
    seq(if p.width > 0 then p.width else 0, i requires 0 <= i => Bit(v, at + i, p.name, i, p.cls, r))
  }

  datatype Counts = Counts(clk: nat, inp: nat, outp: nat)

  function PortBlocks(p: PortSpec, n: Counts): seq<Bit> {
    if p.dir == InOut then
      Block(In, n.inp, p, DriveEn) + Block(In, n.inp + Width(p), p, DriveVal) + Block(Out, n.outp, p, Obs)
    else if p.dir == Output then Block(Out, n.outp, p, Plain)
    else if p.cls == ClockIn then Block(Clk, n.clk, p, Plain)
    else Block(In, n.inp, p, Plain)
  }

  function Width(p: PortSpec): nat { if p.width > 0 then p.width else 0 }

  function After(p: PortSpec, n: Counts): Counts {
    if p.dir == InOut then n.(inp := n.inp + 2 * Width(p), outp := n.outp + Width(p))
    else if p.dir == Output then n.(outp := n.outp + Width(p))
    else if p.cls == ClockIn then n.(clk := n.clk + Width(p))
    else n.(inp := n.inp + Width(p))
  }

  /** All bits, port after port, and the final counters. */
  function AllBits(ports: seq<PortSpec>, n: Counts): seq<Bit>
    decreases ports
  {
    if ports == [] then [] else PortBlocks(ports[0], n) + AllBits(ports[1..], After(ports[0], n))
  }

  function AllCounts(ports: seq<PortSpec>, n: Counts): Counts
    decreases ports
  {
    if ports == [] then n else AllCounts(ports[1..], After(ports[0], n))
  }

  lemma NoPorts(ports: seq<PortSpec>, n: Counts, bits: seq<Bit>)
    ensures bits + AllBits(ports[|ports|..], n) == bits && AllCounts(ports[|ports|..], n) == n
    ensures ports[0..] == ports
  {}

  lemma OnePort(ports: seq<PortSpec>, k: nat, n: Counts, bits: seq<Bit>)
    requires k < |ports|
    ensures bits + AllBits(ports[k..], n) == bits + PortBlocks(ports[k], n) + AllBits(ports[k + 1..], After(ports[k], n))
    ensures AllCounts(ports[k..], n) == AllCounts(ports[k + 1..], After(ports[k], n))
  {
    hide PortBlocks, After;
    assert ports[k..][1..] == ports[k + 1..];
  }

  /** `build_map`; None is a `WrapError`. */
  method BuildMap(spec: DutSpec) returns (r: Option<DutMap>)
    ensures r.Some? <==> SpecOk(spec)
    ensures r.Some? ==> WellFormed(r.value)
    ensures r.Some? ==> r.value.bits == AllBits(spec.ports, Counts(0, 0, 0))
    ensures r.Some? ==> r.value.prim == spec.prim && r.value.cfg == spec.cfg && r.value.attrs == spec.attrs
                        && r.value.minEventGap == spec.minEventGap
  {
    hide AllBits, AllCounts, Block;
    var bits: seq<Bit> := [];
    var n := Counts(0, 0, 0);
    var seen: set<string> := {};
    NoPorts(spec.ports, n, bits);
    for k := 0 to |spec.ports|
      invariant seen == set i | 0 <= i < k :: spec.ports[i].name
      invariant forall i :: 0 <= i < k ==> PortOk(spec.ports[i], spec.rawClockOut)
      invariant forall i, j :: 0 <= i < j < k ==> spec.ports[i].name != spec.ports[j].name
      invariant bits + AllBits(spec.ports[k..], n) == AllBits(spec.ports, Counts(0, 0, 0))
      invariant AllCounts(spec.ports[k..], n) == AllCounts(spec.ports, Counts(0, 0, 0))
    {
      var p := spec.ports[k];
      if p.name in seen || !PortOk(p, spec.rawClockOut) {
        assert p in spec.ports;
        return None;
      }
      seen := seen + {p.name};
      OnePort(spec.ports, k, n, bits);
      if p.dir == InOut {
        ghost var was, before := bits, n;
        bits, n := Add(bits, n, In, p, DriveEn);
        bits, n := Add(bits, n, In, p, DriveVal);
        bits, n := Add(bits, n, Out, p, Obs);
        assert bits == was + PortBlocks(p, before);
        assert n == After(p, before);
      } else {
        bits, n := Add(bits, n, if p.dir == Output then Out else if p.cls == ClockIn then Clk else In, p, Plain);
      }
    }
    NoPorts(spec.ports, n, bits);
    var m := DutMap(spec.prim, spec.cfg, spec.attrs, n.clk, n.inp, n.outp, bits, spec.minEventGap);
    BuiltMapWellFormed(spec, m);
    r := Some(m);
  }

  /** `add`: appends the bits of one port one by one, advancing the vector's counter. */
  method Add(bits: seq<Bit>, n: Counts, v: VecName, p: PortSpec, r: Role) returns (out: seq<Bit>, k: Counts)
    requires p.width >= 1
    ensures out == bits + Block(v, match v case Clk => n.clk case In => n.inp case Out => n.outp, p, r)
    ensures k == match v
                 case Clk => n.(clk := n.clk + p.width)
                 case In => n.(inp := n.inp + p.width)
                 case Out => n.(outp := n.outp + p.width)
  {
    var at: nat := match v case Clk => n.clk case In => n.inp case Out => n.outp;
    out := bits;
    for i := 0 to p.width
      invariant out == bits + Block(v, at, p, r)[..i]
    {
      out := out + [Bit(v, at + i, p.name, i, p.cls, r)];
      assert Block(v, at, p, r)[..i + 1] == Block(v, at, p, r)[..i] + [Bit(v, at + i, p.name, i, p.cls, r)];
    }
    assert Block(v, at, p, r)[..p.width] == Block(v, at, p, r);
    k := match v
         case Clk => n.(clk := n.clk + p.width)
         case In => n.(inp := n.inp + p.width)
         case Out => n.(outp := n.outp + p.width);
  }

  // ---- a built map is well formed ------------------------------------------------------------------

  lemma {:induction false} OfJoin(a: seq<Bit>, b: seq<Bit>, v: VecName)
    ensures Of(a + b, v) == Of(a, v) + Of(b, v)
  {
    if a == [] {
      assert a + b == b;
    } else {
      assert (a + b)[1..] == a[1..] + b && (a + b)[0] == a[0];
      OfJoin(a[1..], b, v);
      var head := if a[0].vec == v then [a[0]] else [];
      var x, y := Of(a[1..], v), Of(b, v);
      assert head + (x + y) == head + x + y;
    }
  }

  lemma {:induction false} OfUniform(bits: seq<Bit>, v: VecName)
    requires forall b | b in bits :: b.vec == v
    ensures Of(bits, v) == bits
    ensures forall u | u != v :: Of(bits, u) == []
  {
    if bits != [] {
      assert bits[0] in bits;
      OfUniform(bits[1..], v);
      assert bits == [bits[0]] + bits[1..];
    }
  }

  lemma OfBlock(v: VecName, at: nat, p: PortSpec, r: Role, u: VecName)
    ensures Of(Block(v, at, p, r), u) == if u == v then Block(v, at, p, r) else []
  {
    OfUniform(Block(v, at, p, r), v);
  }

  lemma {:induction false} PortBitsJoin(a: seq<Bit>, b: seq<Bit>, v: VecName, p: string, r: Role)
    ensures PortBits(a + b, v, p, r) == PortBits(a, v, p, r) + PortBits(b, v, p, r)
  {
    hide Sits;
    if a == [] {
      assert a + b == b;
    } else {
      assert (a + b)[1..] == a[1..] + b && (a + b)[0] == a[0];
      PortBitsJoin(a[1..], b, v, p, r);
      var head := if Sits(a[0], v, p, r) then [a[0]] else [];
      var x, y := PortBits(a[1..], v, p, r), PortBits(b, v, p, r);
      assert PortBits(a, v, p, r) == head + x;
      assert PortBits(a + b, v, p, r) == head + (x + y);
      assert head + (x + y) == head + x + y;
    }
  }

  lemma {:induction false} PortBitsUniform(bits: seq<Bit>, v: VecName, p: string, r: Role)
    ensures (forall b | b in bits :: Sits(b, v, p, r)) ==> PortBits(bits, v, p, r) == bits
    ensures (forall b | b in bits :: !Sits(b, v, p, r)) ==> PortBits(bits, v, p, r) == []
  {
    if bits != [] {
      assert bits[0] in bits;
      PortBitsUniform(bits[1..], v, p, r);
      assert bits == [bits[0]] + bits[1..];
    }
  }

  lemma PortBitsBlock(v: VecName, at: nat, p: PortSpec, r: Role, u: VecName, q: string, s: Role)
    ensures PortBits(Block(v, at, p, r), u, q, s) == if u == v && q == p.name && s == r then Block(v, at, p, r) else []
  {
    PortBitsUniform(Block(v, at, p, r), u, q, s);
  }

  /** Where each vector of the bits of `ports` starts when counting starts at `n`. */
  predicate NumberedFrom(bits: seq<Bit>, v: VecName, from: nat, to: nat) {
    |Of(bits, v)| == to - from && forall k :: 0 <= k < to - from ==> Of(bits, v)[k].bit == from + k
  }

  lemma {:induction false} AllNumbered(ports: seq<PortSpec>, n: Counts)
    requires forall p | p in ports :: p.width >= 1
    ensures var c, bits := AllCounts(ports, n), AllBits(ports, n);
            && n.clk <= c.clk && NumberedFrom(bits, Clk, n.clk, c.clk)
            && n.inp <= c.inp && NumberedFrom(bits, In, n.inp, c.inp)
            && n.outp <= c.outp && NumberedFrom(bits, Out, n.outp, c.outp)
    decreases ports
  {
    if ports != [] {
      var p, rest := ports[0], AllBits(ports[1..], After(ports[0], n));
      AllNumbered(ports[1..], After(p, n));
      PortNumbered(p, n, Clk);
      PortNumbered(p, n, In);
      PortNumbered(p, n, Out);
      OfJoin(PortBlocks(p, n), rest, Clk);
      OfJoin(PortBlocks(p, n), rest, In);
      OfJoin(PortBlocks(p, n), rest, Out);
    }
  }

  function At(n: Counts, v: VecName): nat { match v case Clk => n.clk case In => n.inp case Out => n.outp }

  lemma PortNumbered(p: PortSpec, n: Counts, v: VecName)
    requires p.width >= 1
    ensures At(n, v) <= At(After(p, n), v) && NumberedFrom(PortBlocks(p, n), v, At(n, v), At(After(p, n), v))
  {
    hide Of, Block;
    if p.dir == InOut {
      InOutOf(p, n, v);
      BlockNumbered(In, n.inp, p, DriveEn);
      BlockNumbered(In, n.inp + Width(p), p, DriveVal);
      BlockNumbered(Out, n.outp, p, Obs);
    } else {
      var u := if p.dir == Output then Out else if p.cls == ClockIn then Clk else In;
      OfBlock(u, At(n, u), p, Plain, v);
      BlockNumbered(u, At(n, u), p, Plain);
    }
  }

  lemma BlockNumbered(v: VecName, at: nat, p: PortSpec, r: Role)
    requires p.width >= 1
    ensures |Block(v, at, p, r)| == p.width && forall k :: 0 <= k < p.width ==> Block(v, at, p, r)[k].bit == at + k
  {}

  lemma InOutOf(p: PortSpec, n: Counts, v: VecName)
    requires p.dir == InOut
    ensures Of(PortBlocks(p, n), v) ==
            if v == In then Block(In, n.inp, p, DriveEn) + Block(In, n.inp + Width(p), p, DriveVal)
            else if v == Out then Block(Out, n.outp, p, Obs) else []
  {
    hide Of, Block;
    var a, b, c := Block(In, n.inp, p, DriveEn), Block(In, n.inp + Width(p), p, DriveVal), Block(Out, n.outp, p, Obs);
    OfJoin(a + b, c, v);
    OfJoin(a, b, v);
    OfBlock(In, n.inp, p, DriveEn, v);
    OfBlock(In, n.inp + Width(p), p, DriveVal, v);
    OfBlock(Out, n.outp, p, Obs, v);
    assert a + b + [] == a + b && [] + c == c;
  }

  lemma {:induction false} BitsFromPorts(ports: seq<PortSpec>, n: Counts)
    ensures forall b | b in AllBits(ports, n) ::
              exists p :: p in ports && b.port == p.name && b.cls == p.cls && b in PortBlocksAny(p, b)
    decreases ports
  {
    if ports != [] {
      BitsFromPorts(ports[1..], After(ports[0], n));
      forall b | b in AllBits(ports, n)
        ensures exists p :: p in ports && b.port == p.name && b.cls == p.cls && b in PortBlocksAny(p, b)
      {
        if b in PortBlocks(ports[0], n) {
          assert ports[0] in ports && b.port == ports[0].name && b.cls == ports[0].cls && b in PortBlocksAny(ports[0], b);
        } else {
          var p :| p in ports[1..] && b.port == p.name && b.cls == p.cls && b in PortBlocksAny(p, b);
          assert p in ports;
        }
      }
    }
  }

  /** `[b]` when the direction and class of `p` put a bit on the vector and role of `b`. */
  function PortBlocksAny(p: PortSpec, b: Bit): seq<Bit> {
    if (if p.dir == InOut then b.role != Plain && (b.vec == In || b.vec == Out)
        else b.role == Plain && b.vec == if p.dir == Output then Out else if p.cls == ClockIn then Clk else In)
    then [b] else []
  }

  lemma {:induction false} AllContiguous(ports: seq<PortSpec>, n: Counts, q: string, r: Role)
    requires forall i, j :: 0 <= i < j < |ports| ==> ports[i].name != ports[j].name
    ensures Contiguous(PortBits(AllBits(ports, n), In, q, r))
    decreases ports
  {
    if ports != [] {
      var p, rest := ports[0], AllBits(ports[1..], After(ports[0], n));
      AllContiguous(ports[1..], After(p, n), q, r);
      PortBitsJoin(PortBlocks(p, n), rest, In, q, r);
      PortContiguous(p, n, q, r);
      if q == p.name {
        BitsFromPorts(ports[1..], After(p, n));
        forall b | b in rest
          ensures b.port != q
        {
          var x :| x in ports[1..] && b.port == x.name && b.cls == x.cls && b in PortBlocksAny(x, b);
          var j :| 0 <= j < |ports[1..]| && ports[1..][j] == x;
          assert ports[0].name != ports[j + 1].name;
        }
        PortBitsUniform(rest, In, q, r);
        assert PortBits(PortBlocks(p, n), In, q, r) + [] == PortBits(PortBlocks(p, n), In, q, r);
      }
    }
  }

  lemma PortContiguous(p: PortSpec, n: Counts, q: string, r: Role)
    ensures Contiguous(PortBits(PortBlocks(p, n), In, q, r))
    ensures q != p.name ==> PortBits(PortBlocks(p, n), In, q, r) == []
  {
    hide PortBits, Block;
    if p.dir == InOut {
      InOutPortBits(p, n, q, r);
      BlockContiguous(In, n.inp, p, DriveEn);
      BlockContiguous(In, n.inp + Width(p), p, DriveVal);
    } else {
      var u := if p.dir == Output then Out else if p.cls == ClockIn then Clk else In;
      PortBitsBlock(u, At(n, u), p, Plain, In, q, r);
      BlockContiguous(u, At(n, u), p, Plain);
    }
  }

  lemma InOutPortBits(p: PortSpec, n: Counts, q: string, r: Role)
    requires p.dir == InOut
    ensures PortBits(PortBlocks(p, n), In, q, r) ==
            if q == p.name && r == DriveEn then Block(In, n.inp, p, DriveEn)
            else if q == p.name && r == DriveVal then Block(In, n.inp + Width(p), p, DriveVal) else []
  {
    hide PortBits, Block;
    var a, b, c := Block(In, n.inp, p, DriveEn), Block(In, n.inp + Width(p), p, DriveVal), Block(Out, n.outp, p, Obs);
    PortBitsJoin(a + b, c, In, q, r);
    PortBitsJoin(a, b, In, q, r);
    PortBitsBlock(In, n.inp, p, DriveEn, In, q, r);
    PortBitsBlock(In, n.inp + Width(p), p, DriveVal, In, q, r);
    PortBitsBlock(Out, n.outp, p, Obs, In, q, r);
    var x, y := PortBits(a, In, q, r), PortBits(b, In, q, r);
    assert x + [] == x && [] + y == y && x + y + [] == x + y;
  }

  lemma BlockContiguous(v: VecName, at: nat, p: PortSpec, r: Role)
    ensures Contiguous(Block(v, at, p, r))
  {}

  lemma BuiltMapWellFormed(spec: DutSpec, m: DutMap)
    requires SpecOk(spec)
    requires m.bits == AllBits(spec.ports, Counts(0, 0, 0))
    requires Counts(m.nclk, m.nin, m.nout) == AllCounts(spec.ports, Counts(0, 0, 0))
    ensures WellFormed(m)
  {
    hide AllBits, AllCounts, Of, PortBits, Contiguous;
    var n := Counts(0, 0, 0);
    AllNumbered(spec.ports, n);
    forall p, r
      ensures Contiguous(PortBits(m.bits, In, p, r))
    {
      AllContiguous(spec.ports, n, p, r);
    }
    BitsFromPorts(spec.ports, n);
    forall a, b | a in m.bits && b in m.bits && a.port == b.port
      ensures a.cls == b.cls
    {
      var p :| p in spec.ports && a.port == p.name && a.cls == p.cls && a in PortBlocksAny(p, a);
      var q :| q in spec.ports && b.port == q.name && b.cls == q.cls && b in PortBlocksAny(q, b);
      assert p == q;
    }
  }

  // ---- the bits of an input port ---------------------------------------------------------------------

  lemma {:induction false} PortBitsIn(bits: seq<Bit>, v: VecName, p: string, r: Role)
    ensures forall b | b in PortBits(bits, v, p, r) :: b in bits && b in Of(bits, v) && Sits(b, v, p, r)
    ensures forall b | b in bits && Sits(b, v, p, r) :: b in PortBits(bits, v, p, r)
  {
    if bits != [] {
      PortBitsIn(bits[1..], v, p, r);
      assert bits == [bits[0]] + bits[1..];
    }
  }

  lemma {:induction false} OfIn(bits: seq<Bit>, v: VecName)
    ensures forall b :: b in Of(bits, v) <==> b in bits && b.vec == v
  {
    if bits != [] {
      OfIn(bits[1..], v);
      assert bits == [bits[0]] + bits[1..];
    }
  }

  lemma {:induction false} ClsOfIs(bits: seq<Bit>, b: Bit)
    requires b in bits && forall a | a in bits && a.port == b.port :: a.cls == b.cls
    ensures ClsOf(bits, b.port) == Some(b.cls)
  {
    if bits[0].port != b.port {
      ClsOfIs(bits[1..], b);
    } else {
      assert bits[0] in bits;
    }
  }

  /** The vector bits from the first to the last bit of an input port are exactly that port's,
      all of its class, which is never the clock class. */
  lemma PortRange(m: DutMap, p: string)
    requires WellFormed(m) && PortBits(m.bits, In, p, Plain) != []
    ensures var pb := PortBits(m.bits, In, p, Plain);
            && 0 <= pb[0].bit <= pb[|pb| - 1].bit < m.nin
            && pb[|pb| - 1].bit - pb[0].bit + 1 == |pb|
            && ClsOf(m.bits, p).Some? && ClsOf(m.bits, p).value != ClockIn
            && (forall b :: pb[0].bit <= b <= pb[|pb| - 1].bit ==>
                  Of(m.bits, In)[b].port == p && Of(m.bits, In)[b].role == Plain && InClass(m, b) == ClsOf(m.bits, p).value)
  {
    var pb, ins := PortBits(m.bits, In, p, Plain), Of(m.bits, In);
    PortBitsIn(m.bits, In, p, Plain);
    OfIn(m.bits, In);
    assert Contiguous(pb);
    forall k | 0 <= k < |pb|
      ensures pb[k].bit < m.nin && ins[pb[k].bit] == pb[k]
    {
      assert pb[k] in pb;
      var i :| 0 <= i < |ins| && ins[i] == pb[k];
    }
    assert pb[0] in pb && pb[|pb| - 1] in pb;
    ClsOfIs(m.bits, pb[0]);
    forall b | pb[0].bit <= b <= pb[|pb| - 1].bit
      ensures ins[b].port == p && ins[b].role == Plain && InClass(m, b) == ClsOf(m.bits, p).value
    {
      var k := b - pb[0].bit;
      assert pb[k].bit == b && pb[k] in pb && ins[pb[k].bit] == pb[k];
    }
  }
}
