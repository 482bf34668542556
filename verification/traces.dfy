/** Sample traces (formats/xtr.py) and their comparison: golden against actual, and actual against
    actual. */
module Traces {
  import opened Wrap

  /** A trace: its labels in simulated-time order, per label the bits of every port (most significant
      first), and the golden model's provenance tokens. */
  datatype Trace = Trace(labels: seq<string>, samples: map<string, map<string, string>>,
                         prov: map<string, map<string, string>>)

  predicate Distinct(s: seq<string>) { forall i, j :: 0 <= i < j < |s| ==> s[i] != s[j] }

  ghost predicate TraceOk(t: Trace) { Distinct(t.labels) && forall l :: l in t.labels <==> l in t.samples }

  datatype Kind = Value | MissingSample | ExtraSample | MissingPort | PortWidth | SampleOrder

  /** `bit`: least significant 0; -1 for a whole sample or port. */
  datatype Mismatch = Mismatch(at: string, port: string, bit: int, expected: string, actual: string,
                               prov: Option<string>, kind: Kind)

  /** Bit `i` of a value. */
  function BitOf(s: string, i: nat): char
    requires i < |s|
  {
    s[|s| - 1 - i]
  }

  predicate Unknown(c: char) { c == 'x' || c == 'z' }

  // ---- sample order ----------------------------------------------------------------------------------

  function Common(a: seq<string>, b: seq<string>): (r: seq<string>)
    ensures forall l :: l in r <==> l in a && l in b
    ensures Distinct(a) ==> Distinct(r)
  {
    if a == [] then [] else
    var rest := Common(a[1..], b);
    assert forall l :: l in a <==> l == a[0] || l in a[1..];
    assert Distinct(a) ==> Distinct(a[1..]) && a[0] !in a[1..];
    if a[0] in b then
      (var r := [a[0]] + rest;
       assert forall l :: l in r <==> l == a[0] || l in rest;
       r)
    else rest
  }

  lemma SetSize(s: seq<string>)
    requires Distinct(s)
    ensures |set l | l in s| == |s|
    decreases |s|
  {
    if s != [] {
      var init, last := s[..|s| - 1], s[|s| - 1];
      SetSize(init);
      assert s == init + [last];
      assert last !in init;
      assert (set l | l in s) == (set l | l in init) + {last};
    }
  }

  lemma CommonSizes(a: seq<string>, b: seq<string>)
    requires Distinct(a) && Distinct(b)
    ensures |Common(a, b)| == |Common(b, a)|
  {
    var x, y := Common(a, b), Common(b, a);
    SetSize(x);
    SetSize(y);
    assert (set l | l in x) == (set l | l in y);
  }

  /** `_order_mismatch`: the first common label at different places. */
  method OrderMismatch(a: seq<string>, b: seq<string>) returns (r: Option<string>)
    requires Distinct(a) && Distinct(b)
    ensures r.None? <==> Common(a, b) == Common(b, a)
    ensures r.Some? ==> exists i :: 0 <= i < |Common(a, b)| == |Common(b, a)| && r.value == Common(a, b)[i] != Common(b, a)[i]
                                    && Common(a, b)[..i] == Common(b, a)[..i]
  {
    hide Common;
    CommonSizes(a, b);
    var x, y := Common(a, b), Common(b, a);
    for i := 0 to |x|
      invariant x[..i] == y[..i]
    {
      if y[i] != x[i] { return Some(x[i]); }
      assert x[..i + 1] == x[..i] + [x[i]] && y[..i + 1] == y[..i] + [y[i]];
    }
    assert x[..|x|] == x && y[..|y|] == y;
    r := None;
  }

  /** Two orders of the same labels differ in order exactly when they differ. */
  lemma {:induction false} CommonSelf(a: seq<string>, b: seq<string>)
    requires forall l | l in a :: l in b
    ensures Common(a, b) == a
  {
    if a != [] {
      assert a[0] in a;
      CommonSelf(a[1..], b);
      assert a == [a[0]] + a[1..];
    }
  }

  predicate InOrder(a: Trace, b: Trace) { Common(a.labels, b.labels) == Common(b.labels, a.labels) }

  // ---- golden against actual -------------------------------------------------------------------------

  function ProvOf(e: Trace, at: string, port: string): Option<string> {
    if at in e.prov && port in e.prov[at] then Some(e.prov[at][port]) else None
  }

  /** An expected bit that is compared: not a don't-care, and no x or z for a 2-state runner. */
  predicate Compared(c: char, x: bool) { c != '-' && (x || !Unknown(c)) }

  /** What one port of one sample reports. */
  ghost predicate PortMismatch(e: Trace, a: Trace, x: bool, m: Mismatch) {
    m.at in e.samples && m.at in a.samples && m.port in e.samples[m.at] &&
    var exp, got := e.samples[m.at][m.port], a.samples[m.at];
    m.prov == ProvOf(e, m.at, m.port) &&
    if m.port !in got then m == Mismatch(m.at, m.port, -1, exp, "missing", m.prov, MissingPort)
    else if |got[m.port]| != |exp| then m == Mismatch(m.at, m.port, -1, exp, got[m.port], m.prov, PortWidth)
    else
      && 0 <= m.bit < |exp| && Compared(BitOf(exp, m.bit), x) && BitOf(exp, m.bit) != BitOf(got[m.port], m.bit)
      && m == Mismatch(m.at, m.port, m.bit, [BitOf(exp, m.bit)], [BitOf(got[m.port], m.bit)], m.prov, Value)
  }

  ghost predicate SampleMismatch(e: Trace, a: Trace, m: Mismatch) {
    || (m.at in e.samples && m.at !in a.samples
        && m == Mismatch(m.at, "*", -1, "present", "missing", None, MissingSample))
    || (m.at in a.samples && m.at !in e.samples
        && m == Mismatch(m.at, "*", -1, "missing", "present", None, ExtraSample))
  }

  ghost predicate OrderMismatched(a: Trace, b: Trace, m: Mismatch) {
    !InOrder(a, b) && m.kind == SampleOrder && m.port == "*" && m.bit == -1 && m.prov.None?
    && m.at in a.labels && m.at in b.labels
  }

  /** What `compare` may report. */
  ghost predicate IsMismatch(e: Trace, a: Trace, x: bool, m: Mismatch) {
    PortMismatch(e, a, x, m) || SampleMismatch(e, a, m) || OrderMismatched(e, a, m)
  }

  /** Everything it must report: all of it, but of the order only the first. */
  ghost predicate Complete(out: seq<Mismatch>, e: Trace, a: Trace, x: bool) {
    && (forall m :: PortMismatch(e, a, x, m) || SampleMismatch(e, a, m) ==> m in out)
    && (!InOrder(e, a) ==> exists m :: m in out && OrderMismatched(e, a, m))
    && (forall m :: m in out ==> IsMismatch(e, a, x, m))
  }

  method CompareBits(e: Trace, a: Trace, x: bool, at: string, port: string) returns (out: seq<Mismatch>)
    requires at in e.samples && at in a.samples && port in e.samples[at]
    ensures forall m :: m in out <==> PortMismatch(e, a, x, m) && m.at == at && m.port == port
  {
    var exp, got, prov := e.samples[at][port], a.samples[at], ProvOf(e, at, port);
    out := [];
    if port !in got {
      out := [Mismatch(at, port, -1, exp, "missing", prov, MissingPort)];
    } else if |got[port]| != |exp| {
      out := [Mismatch(at, port, -1, exp, got[port], prov, PortWidth)];
    } else {
      for i := 0 to |exp|
        invariant forall m :: m in out <==> PortMismatch(e, a, x, m) && m.at == at && m.port == port && m.bit < i
      {
        var ec, ac := BitOf(exp, i), BitOf(got[port], i);
        if Compared(ec, x) && ec != ac { out := out + [Mismatch(at, port, i, [ec], [ac], prov, Value)]; }
      }
    }
  }

  method CompareSamples(e: Trace, a: Trace, x: bool) returns (out: seq<Mismatch>)
    requires TraceOk(e)
    ensures forall m :: m in out <==> m.at in e.samples && (PortMismatch(e, a, x, m) || SampleMismatch(e, a, m))
  {
    hide PortMismatch;
    out := [];
    for i := 0 to |e.labels|
      invariant forall m :: m in out <==> m.at in e.labels[..i] && (PortMismatch(e, a, x, m) || SampleMismatch(e, a, m))
    {
      var at := e.labels[i];
      assert e.labels[..i + 1] == e.labels[..i] + [at];
      assert at in e.labels;
      NoPort(e, a, x, at);
      if at !in a.samples {
        out := out + [Mismatch(at, "*", -1, "present", "missing", None, MissingSample)];
      } else {
        var more := ComparePorts(e, a, x, at);
        out := out + more;
      }
    }
    assert e.labels[..|e.labels|] == e.labels;
  }

  method ExtraSamples(e: Trace, a: Trace) returns (out: seq<Mismatch>)
    requires TraceOk(a)
    ensures forall m :: m in out <==> m.at !in e.samples && SampleMismatch(e, a, m)
  {
    out := [];
    for i := 0 to |a.labels|
      invariant forall m :: m in out <==> m.at in a.labels[..i] && m.at !in e.samples && SampleMismatch(e, a, m)
    {
      var at := a.labels[i];
      assert a.labels[..i + 1] == a.labels[..i] + [at];
      assert at in a.labels;
      if at !in e.samples { out := out + [Mismatch(at, "*", -1, "missing", "present", None, ExtraSample)]; }
    }
    assert a.labels[..|a.labels|] == a.labels;
  }

  method Misordered(a: Trace, b: Trace) returns (out: seq<Mismatch>)
    requires TraceOk(a) && TraceOk(b)
    ensures !InOrder(a, b) ==> exists m :: m in out && OrderMismatched(a, b, m)
    ensures forall m :: m in out ==> OrderMismatched(a, b, m)
  {
    var o := OrderMismatch(a.labels, b.labels);
    InOrderIs(a, b);
    out := [];
    if o.Some? {
      var m := Mismatch(o.value, "*", -1, "", "", None, SampleOrder);
      CommonIn(a, b, o.value);
      out := [m];
      assert m in out && OrderMismatched(a, b, m);
    }
  }

  /** `compare`. */
  method Compare(e: Trace, a: Trace, x: bool) returns (out: seq<Mismatch>)
    requires TraceOk(e) && TraceOk(a)
    ensures Complete(out, e, a, x)
  {
    hide PortMismatch, SampleMismatch, OrderMismatched, InOrder, TraceOk;
    PortLabels(e, a, x);
    var first := CompareSamples(e, a, x);
    var extra := ExtraSamples(e, a);
    var order := Misordered(e, a);
    out := first + extra + order;
    if !InOrder(e, a) {
      ghost var m :| m in order && OrderMismatched(e, a, m);
      assert m in out;
    }
  }

  lemma CommonIn(a: Trace, b: Trace, l: string)
    ensures l in Common(a.labels, b.labels) ==> l in a.labels && l in b.labels
  {}

  lemma InOrderIs(a: Trace, b: Trace)
    ensures InOrder(a, b) <==> Common(a.labels, b.labels) == Common(b.labels, a.labels)
  {}

  lemma NoPort(e: Trace, a: Trace, x: bool, at: string)
    ensures forall m: Mismatch | m.at == at && PortMismatch(e, a, x, m) :: at in a.samples && at in e.samples
  {}

  lemma PortLabels(e: Trace, a: Trace, x: bool)
    ensures forall m | PortMismatch(e, a, x, m) :: m.at in e.samples && m.at in a.samples
  {}

  method ComparePorts(e: Trace, a: Trace, x: bool, at: string) returns (out: seq<Mismatch>)
    requires at in e.samples && at in a.samples
    ensures forall m :: m in out <==> m.at == at && PortMismatch(e, a, x, m)
  {
    var ports := e.samples[at].Keys;
    ghost var done: set<string> := {};
    PortsOf(e, a, x, at);
    hide PortMismatch;
    out := [];
    while ports != {}
      invariant ports + done == e.samples[at].Keys && ports !! done
      invariant forall m :: m in out <==> m.at == at && m.port in done && PortMismatch(e, a, x, m)
      decreases ports
    {
      var p :| p in ports;
      var more := CompareBits(e, a, x, at, p);
      out, ports, done := out + more, ports - {p}, done + {p};
    }
  }

  lemma PortsOf(e: Trace, a: Trace, x: bool, at: string)
    requires at in e.samples
    ensures forall m | PortMismatch(e, a, x, m) && m.at == at :: m.port in e.samples[at].Keys
  {}

  // ---- what no mismatch means ------------------------------------------------------------------------

  predicate SameBits(exp: string, got: string, x: bool) {
    |exp| == |got| && forall i: nat :: i < |exp| && Compared(BitOf(exp, i), x) ==> BitOf(exp, i) == BitOf(got, i)
  }

  /** The actual trace has exactly the samples of the golden one, in its order, with all its ports at
      their widths, and every bit that is compared as expected. */
  ghost predicate Conforms(e: Trace, a: Trace, x: bool) {
    && e.labels == a.labels
    && forall l, p :: l in e.samples && p in e.samples[l] ==> l in a.samples && p in a.samples[l] && SameBits(e.samples[l][p], a.samples[l][p], x)
  }

  lemma SameLabels(a: Trace, b: Trace)
    requires TraceOk(a) && TraceOk(b) && a.samples.Keys == b.samples.Keys
    ensures InOrder(a, b) <==> a.labels == b.labels
  {
    CommonSelf(a.labels, b.labels);
    CommonSelf(b.labels, a.labels);
  }

  lemma HasMember<T>(s: seq<T>)
    requires s != []
    ensures exists x :: x in s
  {
    assert s[0] in s;
  }

  /** `compare` reports nothing exactly when the actual trace conforms. */
  lemma CompareExact(out: seq<Mismatch>, e: Trace, a: Trace, x: bool)
    requires TraceOk(e) && TraceOk(a) && Complete(out, e, a, x)
    ensures out == [] <==> Conforms(e, a, x)
  {
    if out == [] { NoneConforms(out, e, a, x); }
    if Conforms(e, a, x) {
      SameLabels(e, a);
      forall m
        ensures !IsMismatch(e, a, x, m)
      {
        if m.at in e.samples && m.port in e.samples[m.at] {
          assert SameBits(e.samples[m.at][m.port], a.samples[m.at][m.port], x);
        }
      }
      if out != [] { HasMember(out); }
    }
  }

  lemma NoneConforms(out: seq<Mismatch>, e: Trace, a: Trace, x: bool)
    requires TraceOk(e) && TraceOk(a) && Complete(out, e, a, x) && out == []
    ensures Conforms(e, a, x)
  {
    hide PortMismatch, InOrder, SameBits, TraceOk;
    assert forall m :: !PortMismatch(e, a, x, m) && !SampleMismatch(e, a, m);
    forall l
      ensures l in e.samples <==> l in a.samples
    {
      assert !SampleMismatch(e, a, Mismatch(l, "*", -1, "present", "missing", None, MissingSample));
      assert !SampleMismatch(e, a, Mismatch(l, "*", -1, "missing", "present", None, ExtraSample));
    }
    assert e.samples.Keys == a.samples.Keys;
    SameLabels(e, a);
    forall l, p | l in e.samples && p in e.samples[l]
      ensures p in a.samples[l] && SameBits(e.samples[l][p], a.samples[l][p], x)
    {
      PortConforms(e, a, x, l, p);
    }
  }

  lemma PortConforms(e: Trace, a: Trace, x: bool, l: string, p: string)
    requires l in e.samples && l in a.samples && p in e.samples[l] && forall m :: !PortMismatch(e, a, x, m)
    ensures p in a.samples[l] && SameBits(e.samples[l][p], a.samples[l][p], x)
  {
    var exp, got, prov := e.samples[l][p], a.samples[l], ProvOf(e, l, p);
    assert !PortMismatch(e, a, x, Mismatch(l, p, -1, exp, "missing", prov, MissingPort));
    assert !PortMismatch(e, a, x, Mismatch(l, p, -1, exp, got[p], prov, PortWidth));
    forall i: nat | i < |exp| && Compared(BitOf(exp, i), x)
      ensures BitOf(exp, i) == BitOf(got[p], i)
    {
      assert !PortMismatch(e, a, x, Mismatch(l, p, i, [BitOf(exp, i)], [BitOf(got[p], i)], prov, Value));
    }
  }

  // ---- actual against actual -------------------------------------------------------------------------

  /** Bits that may differ unnoticed: an x or z that the other runner cannot observe. */
  predicate Excused(ca: char, cb: char, ax: bool, bx: bool) { (Unknown(ca) && !bx) || (Unknown(cb) && !ax) }

  function ValueIn(s: map<string, string>, p: string): string { if p in s && s[p] != "" then s[p] else "missing" }

  ghost predicate DiffPort(a: Trace, b: Trace, ax: bool, bx: bool, m: Mismatch) {
    m.at in a.samples && m.at in b.samples && m.prov.None? &&
    var pa, pb := a.samples[m.at], b.samples[m.at];
    (m.port in pa || m.port in pb) &&
    if m.port !in pa || m.port !in pb then
      m == Mismatch(m.at, m.port, -1, ValueIn(pa, m.port), ValueIn(pb, m.port), None, MissingPort)
    else
      var va, vb := pa[m.port], pb[m.port];
      if |va| != |vb| then m == Mismatch(m.at, m.port, -1, va, vb, None, PortWidth)
      else
        && 0 <= m.bit < |va| && BitOf(va, m.bit) != BitOf(vb, m.bit) && !Excused(BitOf(va, m.bit), BitOf(vb, m.bit), ax, bx)
        && m == Mismatch(m.at, m.port, m.bit, [BitOf(va, m.bit)], [BitOf(vb, m.bit)], None, Value)
  }

  ghost predicate DiffSample(a: Trace, b: Trace, m: Mismatch) {
    && (m.at in a.samples <==> m.at !in b.samples)
    && m == Mismatch(m.at, "*", -1, if m.at in a.samples then "present" else "missing",
                     if m.at in b.samples then "present" else "missing", None, MissingSample)
  }

  ghost predicate DiffComplete(out: seq<Mismatch>, a: Trace, b: Trace, ax: bool, bx: bool) {
    && (forall m :: DiffPort(a, b, ax, bx, m) || DiffSample(a, b, m) ==> m in out)
    && (!InOrder(a, b) ==> exists m :: m in out && OrderMismatched(a, b, m))
    && (forall m :: m in out ==> DiffPort(a, b, ax, bx, m) || DiffSample(a, b, m) || OrderMismatched(a, b, m))
  }

  method DiffBits(a: Trace, b: Trace, ax: bool, bx: bool, at: string, port: string) returns (out: seq<Mismatch>)
    requires at in a.samples && at in b.samples && (port in a.samples[at] || port in b.samples[at])
    ensures forall m :: m in out <==> DiffPort(a, b, ax, bx, m) && m.at == at && m.port == port
  {
    var pa, pb := a.samples[at], b.samples[at];
    out := [];
    if port !in pa || port !in pb {
      out := [Mismatch(at, port, -1, ValueIn(pa, port), ValueIn(pb, port), None, MissingPort)];
    } else if |pa[port]| != |pb[port]| {
      out := [Mismatch(at, port, -1, pa[port], pb[port], None, PortWidth)];
    } else {
      for i := 0 to |pa[port]|
        invariant forall m :: m in out <==> DiffPort(a, b, ax, bx, m) && m.at == at && m.port == port && m.bit < i
      {
        var ca, cb := BitOf(pa[port], i), BitOf(pb[port], i);
        if !(ca == cb || Excused(ca, cb, ax, bx)) { out := out + [Mismatch(at, port, i, [ca], [cb], None, Value)]; }
      }
    }
  }

  method DiffPorts(a: Trace, b: Trace, ax: bool, bx: bool, at: string) returns (out: seq<Mismatch>)
    requires at in a.samples && at in b.samples
    ensures forall m :: m in out <==> m.at == at && DiffPort(a, b, ax, bx, m)
  {
    var ports := a.samples[at].Keys + b.samples[at].Keys;
    ghost var done: set<string> := {};
    assert forall m | DiffPort(a, b, ax, bx, m) && m.at == at :: m.port in ports;
    hide DiffPort;
    out := [];
    while ports != {}
      invariant ports + done == a.samples[at].Keys + b.samples[at].Keys && ports !! done
      invariant forall m :: m in out <==> m.at == at && m.port in done && DiffPort(a, b, ax, bx, m)
      decreases ports
    {
      var p :| p in ports;
      var more := DiffBits(a, b, ax, bx, at, p);
      out, ports, done := out + more, ports - {p}, done + {p};
    }
  }

  method DiffSamples(a: Trace, b: Trace, ax: bool, bx: bool) returns (out: seq<Mismatch>)
    ensures forall m :: m in out <==> DiffPort(a, b, ax, bx, m) || DiffSample(a, b, m)
  {
    DiffLabels(a, b, ax, bx);
    hide DiffPort;
    var labels := a.samples.Keys + b.samples.Keys;
    ghost var done: set<string> := {};
    out := [];
    while labels != {}
      invariant labels + done == a.samples.Keys + b.samples.Keys && labels !! done
      invariant forall m :: m in out <==> m.at in done && (DiffPort(a, b, ax, bx, m) || DiffSample(a, b, m))
      decreases labels
    {
      var at :| at in labels;
      if at !in a.samples || at !in b.samples {
        out := out + [Mismatch(at, "*", -1, if at in a.samples then "present" else "missing",
                               if at in b.samples then "present" else "missing", None, MissingSample)];
      } else {
        var more := DiffPorts(a, b, ax, bx, at);
        out := out + more;
      }
      labels, done := labels - {at}, done + {at};
    }
  }

  /** `diff`, before it is sorted. */
  method Diff(a: Trace, b: Trace, ax: bool, bx: bool) returns (out: seq<Mismatch>)
    requires TraceOk(a) && TraceOk(b)
    ensures DiffComplete(out, a, b, ax, bx)
  {
    hide DiffPort, DiffSample, OrderMismatched, InOrder, TraceOk;
    var first := DiffSamples(a, b, ax, bx);
    var order := Misordered(a, b);
    out := first + order;
    if !InOrder(a, b) {
      ghost var m :| m in order && OrderMismatched(a, b, m);
      assert m in out;
    }
  }

  lemma DiffLabels(a: Trace, b: Trace, ax: bool, bx: bool)
    ensures forall m | DiffPort(a, b, ax, bx, m) :: m.at in a.samples && m.at in b.samples
  {}

  predicate SameValue(va: string, vb: string, ax: bool, bx: bool) {
    |va| == |vb| && forall i: nat :: i < |va| ==> BitOf(va, i) == BitOf(vb, i) || Excused(BitOf(va, i), BitOf(vb, i), ax, bx)
  }

  /** Two traces agree: the same samples in the same order, the same ports and widths, and every bit that
      both runners can observe. */
  ghost predicate Agree(a: Trace, b: Trace, ax: bool, bx: bool) {
    && a.labels == b.labels
    && forall l :: l in a.samples && l in b.samples ==>
         && a.samples[l].Keys == b.samples[l].Keys
         && forall p :: p in a.samples[l] && p in b.samples[l] ==> SameValue(a.samples[l][p], b.samples[l][p], ax, bx)
  }

  /** `diff` reports nothing exactly when the traces agree. */
  lemma DiffExact(out: seq<Mismatch>, a: Trace, b: Trace, ax: bool, bx: bool)
    requires TraceOk(a) && TraceOk(b) && DiffComplete(out, a, b, ax, bx)
    ensures out == [] <==> Agree(a, b, ax, bx)
  {
    if out == [] { NoneAgree(out, a, b, ax, bx); }
    if Agree(a, b, ax, bx) {
      assert a.samples.Keys == b.samples.Keys;
      SameLabels(a, b);
      forall m
        ensures !DiffPort(a, b, ax, bx, m) && !DiffSample(a, b, m) && !OrderMismatched(a, b, m)
      {
        if m.at in a.samples && m.port in a.samples[m.at] {
          assert SameValue(a.samples[m.at][m.port], b.samples[m.at][m.port], ax, bx);
        }
      }
      if out != [] { HasMember(out); }
    }
  }

  lemma NoneAgree(out: seq<Mismatch>, a: Trace, b: Trace, ax: bool, bx: bool)
    requires TraceOk(a) && TraceOk(b) && DiffComplete(out, a, b, ax, bx) && out == []
    ensures Agree(a, b, ax, bx)
  {
    hide DiffPort, InOrder, SameValue, TraceOk;
    assert forall m :: !DiffPort(a, b, ax, bx, m) && !DiffSample(a, b, m);
    forall l
      ensures l in a.samples <==> l in b.samples
    {
      assert !DiffSample(a, b, Mismatch(l, "*", -1, if l in a.samples then "present" else "missing",
                                        if l in b.samples then "present" else "missing", None, MissingSample));
    }
    assert a.samples.Keys == b.samples.Keys;
    SameLabels(a, b);
    forall l | l in a.samples && l in b.samples
      ensures a.samples[l].Keys == b.samples[l].Keys
      ensures forall p :: p in a.samples[l] && p in b.samples[l] ==> SameValue(a.samples[l][p], b.samples[l][p], ax, bx)
    {
      forall p
        ensures p in a.samples[l] <==> p in b.samples[l]
        ensures p in a.samples[l] && p in b.samples[l] ==> SameValue(a.samples[l][p], b.samples[l][p], ax, bx)
      {
        PortAgrees(a, b, ax, bx, l, p);
      }
    }
  }

  lemma PortAgrees(a: Trace, b: Trace, ax: bool, bx: bool, l: string, p: string)
    requires l in a.samples && l in b.samples && forall m :: !DiffPort(a, b, ax, bx, m)
    ensures p in a.samples[l] <==> p in b.samples[l]
    ensures p in a.samples[l] && p in b.samples[l] ==> SameValue(a.samples[l][p], b.samples[l][p], ax, bx)
  {
    var pa, pb := a.samples[l], b.samples[l];
    assert !DiffPort(a, b, ax, bx, Mismatch(l, p, -1, ValueIn(pa, p), ValueIn(pb, p), None, MissingPort));
    if p in pa && p in pb {
      assert !DiffPort(a, b, ax, bx, Mismatch(l, p, -1, pa[p], pb[p], None, PortWidth));
      forall i: nat | i < |pa[p]|
        ensures BitOf(pa[p], i) == BitOf(pb[p], i) || Excused(BitOf(pa[p], i), BitOf(pb[p], i), ax, bx)
      {
        assert !DiffPort(a, b, ax, bx, Mismatch(l, p, i, [BitOf(pa[p], i)], [BitOf(pb[p], i)], None, Value));
      }
    }
  }
}
