/** Sample traces as text (`add`, `dumps`, `loads` and `concat` of formats/xtr.py). */
module XtrText {
  import opened Text
  import opened Wrap
  import opened XvecQuoting
  import L = XvecLines
  import S = Stimulus

  /** A name and its text: a header pair, the bits of a port, the provenance of a port. */
  datatype Pair = Pair(name: string, text: string)

  /** One sample, as a dictionary in writing order; no provenance is the empty list. */
  datatype Sample = Sample(name: string, values: seq<Pair>, prov: seq<Pair>)

  datatype Trace = Trace(header: seq<Pair>, samples: seq<Sample>)

  // ---- what a trace may hold -------------------------------------------------------------------------

  predicate Named(ps: seq<Pair>, n: string) { exists p :: p in ps && p.name == n }

  predicate DistinctPairs(ps: seq<Pair>) { forall i, j :: 0 <= i < j < |ps| ==> ps[i].name != ps[j].name }

  function Lookup(ps: seq<Pair>, n: string, other: string): string {
    if ps == [] then other else if ps[0].name == n then ps[0].text else Lookup(ps[1..], n, other)
  }

  function Kind(h: seq<Pair>): string { Lookup(h, "kind", "actual") }

  predicate Solidly(s: string, a: char, b: char) { s != "" && forall i :: 0 <= i < |s| ==> !IsSpace(s[i]) && s[i] != a && s[i] != b }

  /** `_check_header`. */
  predicate HeaderOk(h: seq<Pair>) {
    DistinctPairs(h) && (forall p | p in h :: HeaderKey(p.name) && Solidly(p.text, '#', '#')) && Kind(h) in ["actual", "expected"]
  }

  /** `is_port`: a Verilog identifier. */
  predicate IsPort(s: string) { s != "" && KeyStart(s[0]) && forall i :: 0 <= i < |s| ==> IsWord(s[i]) || s[i] == '$' }

  predicate BitChar(c: char) { c == '0' || c == '1' || c == 'x' || c == 'z' || c == '-' }

  predicate BitsOk(s: string, kind: string) {
    s != "" && (forall i :: 0 <= i < |s| ==> BitChar(s[i])) && (kind == "expected" || '-' !in s)
  }

  /** `_check_sample`. */
  predicate SampleOk(s: Sample, kind: string) {
    && S.IsLabel(s.name)
    && DistinctPairs(s.values) && (forall p | p in s.values :: IsPort(p.name) && BitsOk(p.text, kind))
    && DistinctPairs(s.prov) && (forall p | p in s.prov :: Named(s.values, p.name) && Solidly(p.text, '#', '|'))
  }

  predicate DistinctSamples(ss: seq<Sample>) { forall i, j :: 0 <= i < j < |ss| ==> ss[i].name != ss[j].name }

  predicate TraceOk(t: Trace) {
    HeaderOk(t.header) && DistinctSamples(t.samples) && forall s | s in t.samples :: SampleOk(s, Kind(t.header))
  }

  /** `Trace.add`. */
  function Add(t: Trace, s: Sample): Option<Trace> {
    if (exists q :: q in t.samples && q.name == s.name) || !SampleOk(s, Kind(t.header)) then None
    else Some(t.(samples := t.samples + [s]))
  }

  // ---- writing ---------------------------------------------------------------------------------------

  /** The groups of four bits, counted from the last. */
  function Nibbles(bits: string): seq<string>
    decreases |bits|
  {
    if |bits| <= 4 then [bits] else Nibbles(bits[..|bits| - 4]) + [bits[|bits| - 4..]]
  }

  /** `_group`. */
  function Group(bits: string): string { Join("_", Nibbles(bits)) }

  function PairText(p: Pair): string { p.name + "=" + p.text }

  function PairTexts(ps: seq<Pair>): seq<string> { seq(|ps|, i requires 0 <= i < |ps| => PairText(ps[i])) }

  function Grouped(ps: seq<Pair>): seq<Pair> { seq(|ps|, i requires 0 <= i < |ps| => Pair(ps[i].name, Group(ps[i].text))) }

  function SampleText(s: Sample): string {
    s.name + ("  " + Join(" ", PairTexts(Grouped(s.values)))) + (if s.prov == [] then "" else "  |" + (" " + Join(" ", PairTexts(s.prov))))
  }

  function HeaderText(h: seq<Pair>): string {
    L.FirstText("xut-trace", Join(" ", PairTexts(h)))
  }

  function SampleTexts(ss: seq<Sample>): seq<string> { if ss == [] then [] else SampleTexts(ss[..|ss| - 1]) + [SampleText(ss[|ss| - 1])] }

  /** `dumps`, which checks everything again. */
  function Dumps(t: Trace): Option<string> {
    if TraceOk(t) then Some(Join("\n", [HeaderText(t.header)] + SampleTexts(t.samples)) + "\n") else None
  }

  // ---- reading ---------------------------------------------------------------------------------------

  /** Where the first `c` stands, or the end. */
  function Find(s: string, c: char): (n: nat)
    ensures n <= |s| && c !in s[..n] && (n < |s| ==> s[n] == c)
  {
    if s == "" || s[0] == c then 0 else
    var n := Find(s[1..], c) + 1;
    assert s[..n] == [s[0]] + s[1..][..n - 1];
    n
  }

  function Upto(s: string, c: char): string { s[..Find(s, c)] }

  function Beyond(s: string, c: char): string { if Find(s, c) == |s| then "" else s[Find(s, c) + 1..] }

  /** `tok.partition("=")`, which must find one. */
  function ReadPair(tok: string): Option<Pair> {
    if '=' in tok then Some(Pair(Upto(tok, '='), Beyond(tok, '='))) else None
  }

  /** New pairs only. */
  function ReadPairs(toks: seq<string>): Option<seq<Pair>> {
    if toks == [] then Some([]) else
    var init, p := ReadPairs(toks[..|toks| - 1]), ReadPair(toks[|toks| - 1]);
    if init.None? || p.None? || Named(init.value, p.value.name) then None else Some(init.value + [p.value])
  }

  function Ungrouped(s: string): string { Replace(s, '_', "") }

  predicate ValueText(s: string) { s != "" && forall i :: 0 <= i < |s| ==> BitChar(s[i]) || s[i] == '_' }

  function UngroupedAll(ps: seq<Pair>): seq<Pair> { seq(|ps|, i requires 0 <= i < |ps| => Pair(ps[i].name, Ungrouped(ps[i].text))) }

  /** A line of a trace; None is an error. */
  function ReadSample(line: string): Option<Sample> {
    var toks := Fields(Upto(line, '|'));
    if toks == [] then None else
    var values, prov := ReadPairs(toks[1..]), ReadPairs(Fields(Beyond(line, '|')));
    if values.None? || prov.None? || exists p :: p in values.value && !ValueText(p.text) then None
    else if exists p :: p in prov.value && p.text == "" then None
    else Some(Sample(toks[0], UngroupedAll(values.value), prov.value))
  }

  function ReadLine(t: Trace, raw: string): Option<Trace> {
    var line := Strip(Upto(raw, '#'));
    if line == "" then Some(t) else
    var s := ReadSample(line);
    if s.None? then None else Add(t, s.value)
  }

  function ReadLines(t: Trace, lines: seq<string>): Option<Trace> {
    if lines == [] then Some(t) else
    var before := ReadLines(t, lines[..|lines| - 1]);
    if before.None? then None else ReadLine(before.value, lines[|lines| - 1])
  }

  function Loads(text: string): Option<Trace> {
    var lines := Lines(text);
    if lines == [] then None else
    var first := L.ReadFirst(lines[0], "xut-trace");
    if first.Fails? || L.NatOf(first.value.text) != 2 then None else
    var h := ReadPairs(Fields(first.value.rest));
    if h.None? || !HeaderOk(h.value) then None else ReadLines(Trace(h.value, []), lines[1..])
  }

  // ---- pairs -----------------------------------------------------------------------------------------

  lemma FindIs(a: string, c: char, b: string)
    requires c !in a
    ensures Find(a + [c] + b, c) == |a| && Upto(a + [c] + b, c) == a && Beyond(a + [c] + b, c) == b
  {
    var s := a + [c] + b;
    var n := Find(s, c);
    assert s[|a|] == c && forall i :: 0 <= i < |a| ==> s[i] == a[i];
    assert forall i :: 0 <= i < n ==> s[i] == s[..n][i];
  }

  lemma FindNone(s: string, c: char)
    requires c !in s
    ensures Find(s, c) == |s| && Upto(s, c) == s && Beyond(s, c) == ""
  {
    assert s[..|s|] == s;
  }

  lemma PairBack(p: Pair)
    requires '=' !in p.name
    ensures ReadPair(PairText(p)) == Some(p)
  {
    FindIs(p.name, '=', p.text);
    assert PairText(p)[|p.name|] == '=';
  }

  lemma {:induction false} PairsBack(ps: seq<Pair>)
    requires DistinctPairs(ps) && forall p | p in ps :: '=' !in p.name
    ensures ReadPairs(PairTexts(ps)) == Some(ps)
    decreases |ps|
  {
    hide ReadPair, PairText;
    if ps != [] {
      var init, p := ps[..|ps| - 1], ps[|ps| - 1];
      assert ps == init + [p];
      PairsBack(init);
      PairBack(p);
      assert PairTexts(ps)[..|ps| - 1] == PairTexts(init) && PairTexts(ps)[|ps| - 1] == PairText(p);
    }
  }

  // ---- bits ------------------------------------------------------------------------------------------

  lemma {:induction false} UngroupedPlain(s: string)
    requires '_' !in s
    ensures Ungrouped(s) == s
  {
    if s != "" {
      UngroupedPlain(s[1..]);
      assert s == [s[0]] + s[1..];
    }
  }

  /** Grouping is undone by dropping the separators. */
  lemma {:induction false} GroupBack(bits: string)
    requires '_' !in bits
    ensures Ungrouped(Group(bits)) == bits
    decreases |bits|
  {
    if |bits| <= 4 {
      UngroupedPlain(bits);
    } else {
      var a, b := bits[..|bits| - 4], bits[|bits| - 4..];
      assert bits == a + b;
      GroupBack(a);
      NibblesSome(a);
      JoinMore("_", Nibbles(a), b);
      ReplaceJoin(Group(a) + "_", b, '_', "");
      ReplaceJoin(Group(a), "_", '_', "");
      UngroupedPlain(b);
      OneDash();
      assert bits + "" == bits;
    }
  }

  lemma OneDash()
    ensures Replace("_", '_', "") == ""
  {
    assert "_"[1..] == "";
  }

  lemma NibblesSome(bits: string)
    ensures Nibbles(bits) != []
  {}

  lemma {:induction false} GroupText(bits: string)
    requires bits != "" && forall i :: 0 <= i < |bits| ==> BitChar(bits[i])
    ensures ValueText(Group(bits))
    decreases |bits|
  {
    if |bits| > 4 {
      GroupText(bits[..|bits| - 4]);
      NibblesSome(bits[..|bits| - 4]);
      JoinMore("_", Nibbles(bits[..|bits| - 4]), bits[|bits| - 4..]);
    }
  }

  // ---- sample lines ----------------------------------------------------------------------------------

  /** A token of a line: no whitespace, and neither mark that ends the values or the line. */
  predicate Token(s: string) { s != "" && Free(s) && All(s, Solid) }

  predicate Free(s: string) { '|' !in s && '#' !in s }

  lemma NameToken(s: string)
    requires S.IsLabel(s)
    ensures Token(s)
  {
    assert forall i :: 0 <= i < |s| ==> S.LabelChar(s[i]);
  }

  lemma ValueToken(p: Pair, kind: string)
    requires IsPort(p.name) && BitsOk(p.text, kind)
    ensures Token(PairText(Pair(p.name, Group(p.text)))) && '=' !in p.name && ValueText(Group(p.text)) && Ungrouped(Group(p.text)) == p.text
  {
    GroupText(p.text);
    assert '_' !in p.text;
    GroupBack(p.text);
    assert forall i :: 0 <= i < |Group(p.text)| ==> BitChar(Group(p.text)[i]) || Group(p.text)[i] == '_';
  }

  lemma ProvToken(p: Pair)
    requires IsPort(p.name) && Solidly(p.text, '#', '|')
    ensures Token(PairText(p)) && '=' !in p.name && p.text != ""
  {}

  /** Tokens joined by blanks. */
  lemma {:induction false} JoinedFree(ts: seq<string>)
    requires forall t | t in ts :: Token(t)
    ensures Free(Join(" ", ts)) && AreFields(ts) && OneLine(Join(" ", ts))
    ensures ts != [] ==> Join(" ", ts) != "" && !IsSpace(Join(" ", ts)[|Join(" ", ts)| - 1])
  {
    if ts != [] {
      HasFirst(ts);
      SolidOneLine(ts[0]);
      assert Belongs(ts[0][|ts[0]| - 1], Solid);
      JoinedFree(ts[1..]);
      assert ts == [ts[0]] + ts[1..];
      if |ts| > 1 {
        var rest := Join(" ", ts[1..]);
        assert Join(" ", ts) == ts[0] + (" " + rest);
        assert OneLine(" " + rest);
      }
    }
  }

  lemma SolidOneLine(s: string)
    requires All(s, Solid)
    ensures OneLine(s)
  {
    assert forall i :: 0 <= i < |s| ==> Belongs(s[i], Solid);
  }

  ghost predicate Parts(s: Sample, vs: seq<string>, ps: seq<string>) {
    && vs == PairTexts(Grouped(s.values)) && ps == PairTexts(s.prov)
    && Token(s.name) && (forall v | v in vs :: Token(v)) && (forall p | p in ps :: Token(p))
    && ReadPairs(vs) == Some(Grouped(s.values)) && ReadPairs(ps) == Some(s.prov)
    && (forall p | p in Grouped(s.values) :: ValueText(p.text)) && (forall p | p in s.prov :: p.text != "")
    && UngroupedAll(Grouped(s.values)) == s.values
  }

  lemma SampleParts(s: Sample, kind: string)
    requires SampleOk(s, kind)
    ensures Parts(s, PairTexts(Grouped(s.values)), PairTexts(s.prov))
  {
    hide PairText, Token, Group, Ungrouped, ValueText, IsPort, BitsOk, Solidly, ReadPairs, S.IsLabel;
    NameToken(s.name);
    var g := Grouped(s.values);
    forall i | 0 <= i < |g|
      ensures Token(PairText(g[i])) && '=' !in g[i].name && ValueText(g[i].text) && Ungrouped(g[i].text) == s.values[i].text
    {
      ValueToken(s.values[i], kind);
    }
    forall p | p in s.prov
      ensures Token(PairText(p)) && '=' !in p.name && p.text != ""
    {
      var v :| v in s.values && v.name == p.name;
      ProvToken(p);
    }
    PairsBack(g);
    PairsBack(s.prov);
  }

  /** What is left of a sample's line once the whitespace around it is gone. */
  function Core(s: Sample, vs: seq<string>, ps: seq<string>): string {
    if vs == [] && ps == [] then s.name
    else s.name + ("  " + Join(" ", vs)) + (if ps == [] then "" else "  |" + (" " + Join(" ", ps)))
  }

  lemma CoreStripped(s: Sample, vs: seq<string>, ps: seq<string>)
    requires Parts(s, vs, ps)
    ensures Strip(SampleText(s)) == Core(s, vs, ps) != "" && '#' !in SampleText(s) && OneLine(SampleText(s))
  {
    hide Parts, PairTexts, Grouped, Token, AreFields, OneLine;
    PartsTokens(s, vs, ps);
    JoinedFree(vs);
    JoinedFree(ps);
    TokenEnds(s.name);
    LinePlain(s, Join(" ", vs), Join(" ", ps));
    var l, c := SampleText(s), Core(s, vs, ps);
    if vs == [] && ps == [] {
      L.Blanks();
      StripPadded("", s.name, "  ");
      assert l == "" + s.name + "  ";
    } else {
      assert l == c;
      LineTrim(s.name, Join(" ", vs), Join(" ", ps), ps != []);
      StripTrim(c);
    }
  }

  lemma TokenEnds(s: string)
    requires Token(s)
    ensures s != "" && Trim(s) && Free(s) && OneLine(s) && !IsSpace(s[0])
  {
    SolidOneLine(s);
    assert Belongs(s[0], Solid) && Belongs(s[|s| - 1], Solid);
  }

  function Shape(name: string, v: string, p: string, prov: bool): string {
    name + ("  " + v) + (if prov then "  |" + (" " + p) else "")
  }

  lemma LineTrim(name: string, v: string, p: string, prov: bool)
    requires name != "" && !IsSpace(name[0]) && if prov then p != "" && !IsSpace(p[|p| - 1]) else v != "" && !IsSpace(v[|v| - 1])
    ensures Trim(Shape(name, v, p, prov)) && Shape(name, v, p, prov) != ""
  {
    var c := Shape(name, v, p, prov);
    assert c[0] == name[0] && c[|c| - 1] == if prov then p[|p| - 1] else v[|v| - 1];
  }

  lemma LinePlain(s: Sample, v: string, p: string)
    requires v == Join(" ", PairTexts(Grouped(s.values))) && p == Join(" ", PairTexts(s.prov))
    requires Free(s.name) && OneLine(s.name) && Free(v) && OneLine(v) && Free(p) && OneLine(p)
    ensures '#' !in SampleText(s) && OneLine(SampleText(s))
  {
    hide PairTexts, Grouped, Join, OneLine;
    assert SampleText(s) == Shape(s.name, v, p, s.prov != []);
    ShapePlain(s.name, v, p, s.prov != []);
  }

  lemma ShapePlain(name: string, v: string, p: string, prov: bool)
    requires Free(name) && OneLine(name) && Free(v) && OneLine(v) && Free(p) && OneLine(p)
    ensures '#' !in Shape(name, v, p, prov) && OneLine(Shape(name, v, p, prov))
  {
    assert OneLine("  ") && OneLine("  |");
  }

  lemma PartsTokens(s: Sample, vs: seq<string>, ps: seq<string>)
    requires Parts(s, vs, ps)
    ensures Token(s.name) && (forall v | v in vs :: Token(v)) && (forall p | p in ps :: Token(p))
    ensures vs == PairTexts(Grouped(s.values)) && ps == PairTexts(s.prov) && (ps == [] <==> s.prov == [])
  {}

  lemma NameFields(name: string, vs: seq<string>)
    requires Token(name) && AreFields(vs)
    ensures Fields(name + ("  " + Join(" ", vs))) == [name] + vs && Fields(name) == [name]
  {
    hide Fields, AreFields, All;
    FieldsFirst(name, "");
    NoFields();
    assert name + "" == name;
    L.Blanks();
    FieldsJoined(vs);
    FieldsIndented("  ", Join(" ", vs));
    L.StopsBlank(" " + Join(" ", vs));
    assert "  " + Join(" ", vs) == " " + (" " + Join(" ", vs));
    FieldsFirst(name, "  " + Join(" ", vs));
  }

  lemma CoreFields(s: Sample, vs: seq<string>, ps: seq<string>)
    requires Parts(s, vs, ps)
    ensures Fields(Upto(Core(s, vs, ps), '|')) == [s.name] + vs && Fields(Beyond(Core(s, vs, ps), '|')) == ps
  {
    hide Parts, Fields, Upto, Beyond;
    PartsTokens(s, vs, ps);
    JoinedFree(vs);
    JoinedFree(ps);
    NameFields(s.name, vs);
    NoFields();
    L.Blanks();
    var v := s.name + ("  " + Join(" ", vs));
    if ps == [] {
      FindNone(Core(s, vs, ps), '|');
      assert v + "" == v && [s.name] + [] == [s.name];
    } else {
      var p := " " + Join(" ", ps);
      assert Core(s, vs, ps) == v + "  " + ['|'] + p;
      FindIs(v + "  ", '|', p);
      FieldsTrailing(v, "  ");
      FieldsIndented(" ", Join(" ", ps));
      FieldsJoined(ps);
    }
  }

  /** A sample is read back from its line. */
  lemma SampleBack(s: Sample, kind: string)
    requires SampleOk(s, kind)
    ensures OneLine(SampleText(s)) && '#' !in SampleText(s) && Strip(SampleText(s)) != "" && ReadSample(Strip(SampleText(s))) == Some(s)
  {
    var vs, ps := PairTexts(Grouped(s.values)), PairTexts(s.prov);
    SampleParts(s, kind);
    CoreStripped(s, vs, ps);
    CoreFields(s, vs, ps);
    hide Core, SampleText, Fields, Upto, Beyond, PairTexts, Grouped, ReadPairs, UngroupedAll, ValueText, Token, SampleOk;
    assert ([s.name] + vs)[1..] == vs;
  }

  // ---- the round trip --------------------------------------------------------------------------------

  lemma SampleReads(t: Trace, s: Sample)
    requires SampleOk(s, Kind(t.header)) && forall q | q in t.samples :: q.name != s.name
    ensures ReadLine(t, SampleText(s)) == Some(t.(samples := t.samples + [s]))
  {
    hide SampleText, ReadSample, SampleOk, Strip;
    SampleBack(s, Kind(t.header));
    FindNone(SampleText(s), '#');
  }

  lemma {:induction false} SamplesRead(h: seq<Pair>, ss: seq<Sample>)
    requires DistinctSamples(ss) && forall s | s in ss :: SampleOk(s, Kind(h))
    ensures ReadLines(Trace(h, []), SampleTexts(ss)) == Some(Trace(h, ss)) && OneLines(SampleTexts(ss))
    decreases |ss|
  {
    hide SampleOk, SampleText, ReadLine;
    if ss != [] {
      var init, s := ss[..|ss| - 1], ss[|ss| - 1];
      assert ss == init + [s];
      SamplesRead(h, init);
      SampleReads(Trace(h, init), s);
      SampleBack(s, Kind(h));
      var ls := SampleTexts(ss);
      assert ls[..|ls| - 1] == SampleTexts(init) && ls[|ls| - 1] == SampleText(s);
    }
  }

  lemma HeaderToken(p: Pair)
    requires HeaderKey(p.name) && Solidly(p.text, '#', '#')
    ensures Field(PairText(p)) && '=' !in p.name
  {
    assert forall i :: 0 <= i < |p.name| ==> Belongs(p.name[i], KeyChars);
  }

  lemma HeaderFields(h: seq<Pair>)
    requires HeaderOk(h)
    ensures ReadPairs(Fields("  " + Join(" ", PairTexts(h)))) == Some(h) && AreFields(PairTexts(h))
  {
    hide Fields, PairText, ReadPairs, HeaderKey, Solidly, Field;
    forall p | p in h
      ensures Field(PairText(p)) && '=' !in p.name
    {
      HeaderToken(p);
    }
    PairsBack(h);
    L.Blanks();
    FieldsIndented("  ", Join(" ", PairTexts(h)));
    FieldsJoined(PairTexts(h));
  }

  lemma HeaderBack(h: seq<Pair>)
    requires HeaderOk(h)
    ensures L.ReadFirst(HeaderText(h), "xut-trace").Gives? && OneLine(HeaderText(h))
    ensures var r := L.ReadFirst(HeaderText(h), "xut-trace").value; L.NatOf(r.text) == 2 && ReadPairs(Fields(r.rest)) == Some(h)
  {
    HeaderFields(h);
    HeaderShape(h);
    hide L.ReadFirst, L.FirstText, L.NatOf, PairTexts, HeaderOk, Fields, ReadPairs, AreFields, OneLine;
    L.FirstBack("xut-trace", Join(" ", PairTexts(h)));
  }

  lemma {:induction false} FieldsOneLine(ws: seq<string>)
    requires AreFields(ws)
    ensures OneLine(Join(" ", ws))
  {
    if ws != [] {
      HasFirst(ws);
      SolidOneLine(ws[0]);
      FieldsOneLine(ws[1..]);
    }
  }

  lemma HeaderShape(h: seq<Pair>)
    requires AreFields(PairTexts(h))
    ensures OneLine(HeaderText(h))
  {
    hide PairTexts, AreFields;
    FieldsOneLine(PairTexts(h));
  }

  lemma LoadsDumped(t: Trace)
    requires TraceOk(t)
    ensures Loads(Dumps(t).value) == Some(t)
  {
    var ls := [HeaderText(t.header)] + SampleTexts(t.samples);
    HeaderBack(t.header);
    SamplesRead(t.header, t.samples);
    hide HeaderText, SampleTexts, L.ReadFirst, ReadLines, HeaderOk, SampleOk, Fields, ReadPairs, L.NatOf, Lines, OneLine, Join;
    assert forall l | l in ls :: OneLine(l);
    LinesJoined(ls);
    assert ls[1..] == SampleTexts(t.samples);
  }

  lemma {:induction false} ReadsOk(h: seq<Pair>, lines: seq<string>)
    requires HeaderOk(h)
    ensures var r := ReadLines(Trace(h, []), lines); r.Some? ==> TraceOk(r.value) && r.value.header == h
    decreases |lines|
  {
    hide HeaderOk, SampleOk, ReadSample, Strip, Upto;
    if lines != [] {
      ReadsOk(h, lines[..|lines| - 1]);
    }
  }

  /** What can be read is exactly what `add` can build, and `dumps` writes it so that it reads back. */
  lemma RoundTrip(t: Trace)
    ensures TraceOk(t) <==> Dumps(t).Some? && Loads(Dumps(t).value) == Some(t)
    ensures TraceOk(t) <==> exists text :: Loads(text) == Some(t)
  {
    hide TraceOk, Loads;
    if TraceOk(t) {
      LoadsDumped(t);
      var text := Dumps(t).value;
      assert Loads(text) == Some(t);
    }
    if text :| Loads(text) == Some(t) { LoadedOk(text, t); }
  }

  lemma LoadedOk(text: string, t: Trace)
    requires Loads(text) == Some(t)
    ensures TraceOk(t)
  {
    hide TraceOk, HeaderOk, L.ReadFirst, ReadLines, Fields, ReadPairs, Lines, L.NatOf;
    var first := L.ReadFirst(Lines(text)[0], "xut-trace").value;
    ReadsOk(ReadPairs(Fields(first.rest)).value, Lines(text)[1..]);
  }

  // ---- concatenation ---------------------------------------------------------------------------------

  datatype Part = Part(cfg: string, trace: Trace)

  /** `is_cfg`: a label without `/`. */
  predicate IsCfg(s: string) { S.IsLabel(s) && '/' !in s }

  function Prefixed(cfg: string, s: Sample): Sample { s.(name := cfg + ['/'] + s.name) }

  /** The samples of one part, added one by one. */
  function AddPart(t: Trace, cfg: string, ss: seq<Sample>): Option<Trace> {
    if ss == [] then Some(t) else
    var before := AddPart(t, cfg, ss[..|ss| - 1]);
    if before.None? then None else Add(before.value, Prefixed(cfg, ss[|ss| - 1]))
  }

  function AddParts(t: Trace, parts: seq<Part>): Option<Trace> {
    if parts == [] then Some(t) else
    var before, p := AddParts(t, parts[..|parts| - 1]), parts[|parts| - 1];
    if before.None? || !IsCfg(p.cfg) then None else AddPart(before.value, p.cfg, p.trace.samples)
  }

  /** `concat`; None is an error. */
  function Concat(parts: seq<Part>, header: seq<Pair>): Option<Trace> {
    if HeaderOk(header) then AddParts(Trace(header, []), parts) else None
  }

  /** The samples under one configuration, by the first `/` of their labels. */
  function Under(ss: seq<Sample>, cfg: string): seq<Sample> {
    if ss == [] then [] else
    var s := ss[|ss| - 1];
    Under(ss[..|ss| - 1], cfg) + if Upto(s.name, '/') == cfg then [s.(name := Beyond(s.name, '/'))] else []
  }

  predicate DistinctCfgs(parts: seq<Part>) { forall i, j :: 0 <= i < j < |parts| ==> parts[i].cfg != parts[j].cfg }

  /** A part that can be added: its samples may stand under the header's kind. */
  predicate PartOk(p: Part, kind: string) {
    IsCfg(p.cfg) && DistinctSamples(p.trace.samples) && forall s | s in p.trace.samples :: SampleOk(s, kind)
  }

  lemma PrefixedName(cfg: string, s: Sample)
    requires '/' !in cfg
    ensures Upto(Prefixed(cfg, s).name, '/') == cfg && Beyond(Prefixed(cfg, s).name, '/') == s.name
  {
    FindIs(cfg, '/', s.name);
  }

  lemma UnderMore(ss: seq<Sample>, cfg: string, c: string, s: Sample)
    requires '/' !in c
    ensures Under(ss + [Prefixed(c, s)], cfg) == Under(ss, cfg) + if c == cfg then [s] else []
  {
    PrefixedName(c, s);
    var r := ss + [Prefixed(c, s)];
    assert r[..|r| - 1] == ss && r[|r| - 1] == Prefixed(c, s);
  }

  lemma PrefixedOk(cfg: string, s: Sample, kind: string)
    requires IsCfg(cfg) && SampleOk(s, kind)
    ensures SampleOk(Prefixed(cfg, s), kind)
  {
    hide DistinctPairs, IsPort, BitsOk, Solidly, Named;
    var n := cfg + ['/'] + s.name;
    assert forall i :: 0 <= i < |n| ==> S.LabelChar(n[i]);
  }

  /** The samples given under one configuration. */
  function Given(parts: seq<Part>, cfg: string): seq<Sample> {
    if parts == [] then [] else
    Given(parts[..|parts| - 1], cfg) + if parts[|parts| - 1].cfg == cfg then parts[|parts| - 1].trace.samples else []
  }

  lemma {:induction false} PartUnder(t: Trace, cfg: string, ss: seq<Sample>, c: string)
    requires '/' !in cfg && AddPart(t, cfg, ss).Some?
    ensures var r := AddPart(t, cfg, ss).value;
      r.header == t.header && Under(r.samples, c) == Under(t.samples, c) + if c == cfg then ss else []
    decreases |ss|
  {
    hide Under, SampleOk;
    if ss != [] {
      var init, s := ss[..|ss| - 1], ss[|ss| - 1];
      assert ss == init + [s];
      PartUnder(t, cfg, init, c);
      UnderMore(AddPart(t, cfg, init).value.samples, c, cfg, s);
      assert Under(t.samples, c) + init + [s] == Under(t.samples, c) + ss;
    }
  }

  lemma {:induction false} PartsUnder(t: Trace, parts: seq<Part>, c: string)
    requires AddParts(t, parts).Some?
    ensures var r := AddParts(t, parts).value; r.header == t.header && Under(r.samples, c) == Under(t.samples, c) + Given(parts, c)
    decreases |parts|
  {
    hide Under, AddPart;
    if parts != [] {
      var init, p := parts[..|parts| - 1], parts[|parts| - 1];
      PartsUnder(t, init, c);
      PartUnder(AddParts(t, init).value, p.cfg, p.trace.samples, c);
    }
  }

  /** Every sample of a concatenation is recovered, in order, from the first `/` of its label. */
  lemma ConcatRecovers(parts: seq<Part>, header: seq<Pair>, cfg: string)
    requires Concat(parts, header).Some?
    ensures Under(Concat(parts, header).value.samples, cfg) == Given(parts, cfg)
  {
    hide HeaderOk;
    PartsUnder(Trace(header, []), parts, cfg);
    assert Under([], cfg) == [];
  }

  lemma {:induction false} GivenOne(parts: seq<Part>, i: nat)
    requires i < |parts| && DistinctCfgs(parts)
    ensures Given(parts, parts[i].cfg) == parts[i].trace.samples
    decreases |parts|
  {
    var init, last, c := parts[..|parts| - 1], parts[|parts| - 1], parts[i].cfg;
    assert forall k :: 0 <= k < |init| ==> init[k] == parts[k];
    if i < |init| {
      GivenOne(init, i);
      assert last.cfg != c;
    } else {
      GivenNone(init, c);
    }
  }

  lemma {:induction false} GivenNone(parts: seq<Part>, c: string)
    requires forall k :: 0 <= k < |parts| ==> parts[k].cfg != c
    ensures Given(parts, c) == []
    decreases |parts|
  {
    if parts != [] { GivenNone(parts[..|parts| - 1], c); }
  }

  // Nothing under a configuration: a label of it is new.

  lemma {:induction false} UnderHas(ss: seq<Sample>, s: Sample)
    requires s in ss
    ensures s.(name := Beyond(s.name, '/')) in Under(ss, Upto(s.name, '/'))
    decreases |ss|
  {
    var init, last := ss[..|ss| - 1], ss[|ss| - 1];
    assert ss == init + [last];
    if s != last { UnderHas(init, s); }
  }

  lemma {:induction false} PartAdds(t: Trace, cfg: string, ss: seq<Sample>)
    requires IsCfg(cfg) && Under(t.samples, cfg) == [] && DistinctSamples(ss) && forall s | s in ss :: SampleOk(s, Kind(t.header))
    ensures AddPart(t, cfg, ss).Some? && AddPart(t, cfg, ss).value.header == t.header
    decreases |ss|
  {
    hide SampleOk, Under;
    if ss != [] {
      var init, s := ss[..|ss| - 1], ss[|ss| - 1];
      assert ss == init + [s];
      PartAdds(t, cfg, init);
      var r := AddPart(t, cfg, init).value;
      PartUnder(t, cfg, init, cfg);
      PrefixedOk(cfg, s, Kind(t.header));
      NewLabel(r.samples, cfg, init, s);
    }
  }

  lemma NewLabel(ss: seq<Sample>, cfg: string, init: seq<Sample>, s: Sample)
    requires IsCfg(cfg) && Under(ss, cfg) == [] + init && forall q | q in init :: q.name != s.name
    ensures forall q | q in ss :: q.name != Prefixed(cfg, s).name
  {
    PrefixedName(cfg, s);
    hide Under, Prefixed, Upto, Beyond;
    forall q | q in ss
      ensures q.name != Prefixed(cfg, s).name
    {
      UnderHas(ss, q);
      assert Upto(q.name, '/') == cfg ==> q.(name := Beyond(q.name, '/')) in init;
    }
  }

  lemma {:induction false} PartsAdd(t: Trace, parts: seq<Part>)
    requires t.samples == [] && DistinctCfgs(parts) && forall p | p in parts :: PartOk(p, Kind(t.header))
    ensures AddParts(t, parts).Some? && AddParts(t, parts).value.header == t.header
    decreases |parts|
  {
    hide SampleOk, Under, AddPart;
    if parts != [] {
      var init, p := parts[..|parts| - 1], parts[|parts| - 1];
      assert parts == init + [p];
      PartsAdd(t, init);
      PartsUnder(t, init, p.cfg);
      GivenNone(init, p.cfg);
      NothingUnder(p.cfg);
      assert p in parts && PartOk(p, Kind(t.header));
      PartAdds(AddParts(t, init).value, p.cfg, p.trace.samples);
    }
  }

  lemma NothingUnder(cfg: string)
    ensures Under([], cfg) == []
  {}

  /** Traces under distinct configuration names concatenate, and each is recovered whole. */
  lemma ConcatBack(parts: seq<Part>, header: seq<Pair>)
    requires HeaderOk(header) && DistinctCfgs(parts) && forall p | p in parts :: PartOk(p, Kind(header))
    ensures var r := Concat(parts, header);
      r.Some? && TraceOk(r.value) && forall i :: 0 <= i < |parts| ==> Under(r.value.samples, parts[i].cfg) == parts[i].trace.samples
  {
    hide HeaderOk, PartOk, Under, AddParts, TraceOk;
    PartsAdd(Trace(header, []), parts);
    AddedOk(Trace(header, []), parts);
    forall i | 0 <= i < |parts|
      ensures Under(Concat(parts, header).value.samples, parts[i].cfg) == parts[i].trace.samples
    {
      ConcatRecovers(parts, header, parts[i].cfg);
      GivenOne(parts, i);
    }
  }

  lemma {:induction false} AddedPartOk(t: Trace, cfg: string, ss: seq<Sample>)
    requires TraceOk(t) && AddPart(t, cfg, ss).Some?
    ensures TraceOk(AddPart(t, cfg, ss).value)
    decreases |ss|
  {
    hide HeaderOk, SampleOk;
    if ss != [] { AddedPartOk(t, cfg, ss[..|ss| - 1]); }
  }

  lemma {:induction false} AddedOk(t: Trace, parts: seq<Part>)
    requires HeaderOk(t.header) && t.samples == [] && AddParts(t, parts).Some?
    ensures TraceOk(AddParts(t, parts).value)
    decreases |parts|
  {
    hide HeaderOk, SampleOk, AddPart;
    if parts != [] {
      AddedOk(t, parts[..|parts| - 1]);
      var p := parts[|parts| - 1];
      AddedPartOk(AddParts(t, parts[..|parts| - 1]).value, p.cfg, p.trace.samples);
    }
  }
}
