/** Whole stimulus files (`dumps` and `loads` of formats/xvec.py): a stimulus survives being written and
    read, exactly when its texts have no control characters and it gives no reason without need. */
module XvecFile {
  import opened Text
  import opened Wrap
  import opened Sorting
  import opened Stimulus
  import opened Decimal
  import opened XvecQuoting
  import opened XvecLines

  /** A stimulus as the file holds it: the header still in its texts, and the renderability line. */
  datatype File = File(header: map<string, string>, clocks: seq<Clock>, events: seq<Event>, hw: Option<bool>, reason: string)

  function Required(): seq<string> { ["prim", "cfg", "nin", "nout", "nclk", "settle_ps", "seed"] }

  function IntKeys(): seq<string> { ["nin", "nout", "nclk", "settle_ps", "seed", "async_sep_ps"] }

  function HeaderOrder(): seq<string> { Required() + ["async_sep_ps", "expect", "illegal"] }

  predicate DigitsOnly(s: string) { s != "" && All(s, Digits) }

  /** `_check_header`. */
  predicate HeaderTextOk(h: map<string, string>) {
    && (forall k | k in h :: HeaderKey(k))
    && (forall k | k in Required() :: k in h)
    && (forall k | k in IntKeys() :: k in h ==> DigitsOnly(h[k]))
  }

  /** The names of a comma-separated list, empty ones dropped. */
  function Listed(s: string, cur: string): seq<string> {
    if s == "" then (if cur == "" then [] else [cur])
    else if s[0] == ',' then (if cur == "" then [] else [cur]) + Listed(s[1..], "")
    else Listed(s[1..], cur + [s[0]])
  }

  function Attrs(h: map<string, string>): map<string, string> {
    var ks := set k | k in h && |k| >= 5 && k[..5] == "attr." :: k[5..];
    assert forall k | k in h && |k| >= 5 && k[..5] == "attr." :: "attr." + k[5..] == k;
    map n | n in ks :: h["attr." + n]
  }

  /** What the header says. */
  function HeadOf(h: map<string, string>): Header
    requires HeaderTextOk(h)
  {
    var r := Required();
    assert r[0] in h && r[1] in h && r[2] in h && r[3] in h && r[4] in h && r[5] in h && r[6] in h;
    Header(h["prim"], h["cfg"], NatOf(h["nin"]), NatOf(h["nout"]), NatOf(h["nclk"]), NatOf(h["settle_ps"]), NatOf(h["seed"]),
           if "async_sep_ps" in h then Some(NatOf(h["async_sep_ps"])) else None,
           "expect" in h && h["expect"] == "reject",
           if "illegal" in h then Some(Listed(h["illegal"], "")) else None, Attrs(h))
  }

  /** The rules of `check_structure`, short of the write and read round trip. */
  predicate FileOk(f: File) { HeaderTextOk(f.header) && StructureOk(Vec(HeadOf(f.header), f.clocks, f.events)) }

  // ---- writing ---------------------------------------------------------------------------------------

  function Among(keys: seq<string>, h: map<string, string>): seq<string> {
    if keys == [] then [] else (if keys[0] in h then [keys[0]] else []) + Among(keys[1..], h)
  }

  /** The known keys in their order, then the others sorted. */
  ghost function Keys(h: map<string, string>): seq<string> {
    Among(HeaderOrder(), h) + Sorted(set k | k in h && k !in HeaderOrder())
  }

  function Entries(keys: seq<string>, h: map<string, string>): seq<Entry>
    requires forall k | k in keys :: k in h
  {
    seq(|keys|, i requires 0 <= i < |keys| => Entry(keys[i], h[keys[i]]))
  }

  ghost function HeaderText(h: map<string, string>): string {
    KeysOf(h);
    FirstText("xut-vec", Join(" ", AllWritten(Entries(Keys(h), h))))
  }

  function HwLines(f: File): seq<string> { if f.hw.None? then [] else [HwText(f.hw.value, f.reason)] }

  function ClockLines(cs: seq<Clock>): seq<string> { if cs == [] then [] else ClockLines(cs[..|cs| - 1]) + [ClockText(cs[|cs| - 1])] }

  function EventLines(es: seq<Event>): seq<string> { if es == [] then [] else EventLines(es[..|es| - 1]) + [EventLine(es[|es| - 1])] }

  ghost function Body(f: File): seq<string> { HwLines(f) + ClockLines(f.clocks) + EventLines(f.events) }

  /** What `dumps` refuses: keys, labels and texts that the format cannot represent. */
  predicate Writable(f: File) {
    && (forall k | k in f.header :: HeaderKey(k) && Representable(f.header[k]))
    && (forall e | e in f.events && e.Sample? :: IsLabel(e.name))
    && (f.hw == Some(false) ==> Representable(f.reason))
  }

  ghost function Dumps(f: File): Option<string> {
    if Writable(f) then Some(Join("\n", [HeaderText(f.header)] + Body(f)) + "\n") else None
  }

  // ---- reading ---------------------------------------------------------------------------------------

  /** Later pairs replace earlier ones. */
  function Dict(es: seq<Entry>): map<string, string> {
    if es == [] then map[] else Dict(es[..|es| - 1])[es[|es| - 1].key := Unquote(es[|es| - 1].value)]
  }

  predicate NewClock(cs: seq<Clock>, c: Clock) { forall d | d in cs :: d.index != c.index }

  predicate NewLabel(es: seq<Event>, e: Event) { e.Sample? ==> forall d | d in es && d.Sample? :: d.name != e.name }

  /** One line after the header; None is an error. */
  function ReadLine(f: File, raw: string): (r: Option<File>)
    requires HeaderTextOk(f.header)
    ensures r.Some? ==> r.value.header == f.header
  {
    var line := Strip(Uncommented(raw, false));
    if line == "" then Some(f) else
    var c := ReadClock(line);
    if c.Gives? then
      var k := c.value.clock;
      if c.value.name == Signed(k.index) && ClockOk(HeadOf(f.header), k) && NewClock(f.clocks, k) then Some(f.(clocks := f.clocks + [k])) else None
    else
    var h := ReadHw(line);
    if h.Gives? then Some(f.(hw := Some(h.value.yes), reason := h.value.reason)) else
    var e := ReadEvent(line);
    if e.Fails? then None else
    var head := HeadOf(f.header);
    var event := EventOf(e.value, head.nin);
    if event.Some? && EventOk(Vec(head, f.clocks, f.events), event.value) && NewLabel(f.events, event.value)
      then Some(f.(events := f.events + [event.value])) else None
  }

  function ReadLines(f: File, lines: seq<string>): (r: Option<File>)
    requires HeaderTextOk(f.header)
    ensures r.Some? ==> r.value.header == f.header
    decreases |lines|
  {
    if lines == [] then Some(f) else
    var next := ReadLine(f, lines[0]);
    if next.None? then None else ReadLines(next.value, lines[1..])
  }

  function Loads(text: string): Option<File> {
    var lines := Lines(text);
    if lines == [] then None else
    var first := ReadFirst(lines[0], "xut-vec");
    if first.Fails? || NatOf(first.value.text) != 2 then None else
    var header := Dict(Pairs(first.value.rest));
    if !HeaderTextOk(header) then None else
    var f := ReadLines(File(header, [], [], None, ""), lines[1..]);
    if f.Some? && Ordered(f.value.events) && Cotimed(f.value.events) then f else None
  }

  // ---- the keys --------------------------------------------------------------------------------------

  lemma {:induction false} AmongIs(keys: seq<string>, h: map<string, string>)
    ensures forall k :: k in Among(keys, h) <==> k in keys && k in h
  {
    if keys != [] {
      AmongIs(keys[1..], h);
      assert forall k :: k in keys <==> k == keys[0] || k in keys[1..];
    }
  }

  /** Every key is written. */
  lemma KeysOf(h: map<string, string>)
    ensures forall k :: k in Keys(h) <==> k in h
  {
    hide HeaderOrder;
    AmongIs(HeaderOrder(), h);
    var rest := set k | k in h && k !in HeaderOrder();
    assert forall k :: k in Keys(h) <==> k in Among(HeaderOrder(), h) || k in Sorted(rest);
  }

  /** The pairs as written give back the header. */
  lemma {:induction false} DictBack(keys: seq<string>, h: map<string, string>)
    requires forall k | k in keys :: k in h
    ensures var d := Dict(AllQuoted(Entries(keys, h)));
      (forall k :: k in d <==> k in keys) && forall k | k in keys :: d[k] == h[k]
    decreases |keys|
  {
    hide Quote, Unquote;
    var es := AllQuoted(Entries(keys, h));
    if keys != [] {
      var init, k := keys[..|keys| - 1], keys[|keys| - 1];
      assert keys == init + [k];
      assert forall x :: x in keys <==> x in init || x == k;
      DictBack(init, h);
      assert es[..|es| - 1] == AllQuoted(Entries(init, h));
      assert es[|es| - 1] == Entry(k, Quote(h[k]));
      UnquoteBack(h[k]);
    }
  }

  lemma HeaderPairs(h: map<string, string>)
    requires forall k | k in h :: HeaderKey(k)
    ensures Keys(h) == Keys(h) && (forall k | k in Keys(h) :: k in h)
    ensures Dict(Pairs("  " + Join(" ", AllWritten(Entries(Keys(h), h))))) == h
  {
    hide Pairs, Dict, Keys, AllQuoted, AllWritten, HeaderKey;
    KeysOf(h);
    var es := Entries(Keys(h), h);
    var j := Join(" ", AllWritten(es));
    assert "  " + j == " " + (" " + j);
    PairsIndented(" " + j);
    PairsIndented(j);
    assert forall e | e in es :: e.key in Keys(h);
    PairsJoined(es);
    DictBack(Keys(h), h);
  }

  lemma HeaderReads(h: map<string, string>)
    requires forall k | k in h :: HeaderKey(k)
    ensures ReadFirst(HeaderText(h), "xut-vec").Gives?
    ensures var r := ReadFirst(HeaderText(h), "xut-vec").value; NatOf(r.text) == 2 && Dict(Pairs(r.rest)) == h
  {
    HeaderPairs(h);
    KeysOf(h);
    hide Dict, Pairs, AllWritten, Entries, Keys, ReadFirst, FirstText, NatOf, HeaderKey;
    FirstBack("xut-vec", Join(" ", AllWritten(Entries(Keys(h), h))));
  }

  // ---- the body --------------------------------------------------------------------------------------

  lemma {:induction false} ReadMore(f: File, lines: seq<string>, line: string)
    requires HeaderTextOk(f.header)
    ensures ReadLines(f, lines + [line]) == var r := ReadLines(f, lines); if r.None? then None else ReadLine(r.value, line)
    decreases |lines|
  {
    hide ReadLine, HeaderTextOk;
    if lines == [] {
      assert [line][1..] == [];
      var next := ReadLine(f, line);
      if next.Some? { assert ReadLines(next.value, []) == next; }
    } else {
      assert (lines + [line])[1..] == lines[1..] + [line] && (lines + [line])[0] == lines[0];
      var next := ReadLine(f, lines[0]);
      if next.Some? { ReadMore(next.value, lines[1..], line); }
    }
  }

  lemma NotThat(l: string, word: string)
    requires l != "" && word != "" && l[0] != word[0]
    ensures Past(l, word) == Fails
  {
    if |word| <= |l| { assert l[..|word|][0] == l[0]; }
  }

  lemma PlainLine(l: string)
    requires LineOk(l)
    ensures Strip(Uncommented(l, false)) == l
  {
    StripTrim(l);
  }

  lemma ClockReads(f: File, c: Clock)
    requires HeaderTextOk(f.header) && ClockOk(HeadOf(f.header), c) && NewClock(f.clocks, c)
    ensures ReadLine(f, ClockText(c)) == Some(f.(clocks := f.clocks + [c]))
  {
    hide ClockText, LineOk, ReadClock, HeaderTextOk, Uncommented, Strip, HeadOf, NewClock;
    ClockClean(c);
    PlainLine(ClockText(c));
    ClockBack(c.index, c.period, c.phase, c.duty, c.free);
    NotEmpty(ClockText(c));
  }

  lemma NotEmpty(l: string)
    requires LineOk(l)
    ensures l != ""
  {}

  lemma EventReads(f: File, e: Event)
    requires HeaderTextOk(f.header) && EventOk(Vec(HeadOf(f.header), f.clocks, f.events), e) && NewLabel(f.events, e) && Legible(e)
    ensures ReadLine(f, EventLine(e)) == Some(f.(events := f.events + [e]))
  {
    hide LineOk, HeaderTextOk, Uncommented, Strip, HeadOf, NewLabel, EventLine, EventOk, ReadEvent, EventOf, Legible, HeaderTextOk;
    var l := EventLine(e);
    EventClean(e);
    PlainLine(l);
    NotEmpty(l);
    EventStarts(e);
    NotThat(l, "clock");
    NotThat(l, "hw_renderable");
    SetInRange(f, e);
    XvecLines.EventReads(e, HeadOf(f.header).nin);
  }

  lemma EventStarts(e: Event)
    ensures EventLine(e) != "" && EventLine(e)[0] == 't'
  {}

  lemma SetInRange(f: File, e: Event)
    requires HeaderTextOk(f.header) && EventOk(Vec(HeadOf(f.header), f.clocks, f.events), e)
    ensures e.Set? ==> e.msb < HeadOf(f.header).nin
  {
    hide HeadOf, HeaderTextOk;
  }

  lemma HwReads(f: File, yes: bool, reason: string)
    requires HeaderTextOk(f.header)
    ensures ReadLine(f, HwText(yes, reason)) == Some(f.(hw := Some(yes), reason := if yes then "" else reason))
  {
    hide LineOk, HeaderTextOk, Uncommented, Strip, HeadOf, HwText, ReadHw;
    var l := HwText(yes, reason);
    HwShape(yes, reason);
    HwUncommented(yes, reason);
    StripTrim(l);
    NotThat(l, "clock");
    HwBack(yes, reason);
  }

  lemma HwShape(yes: bool, reason: string)
    ensures var l := HwText(yes, reason); l != "" && l[0] == 'h' && Trim(l)
  {
    hide Escape;
    var l := HwText(yes, reason);
    assert l[|l| - 1] == if yes then 's' else '"';
  }

  /** Nothing of the reason is taken for a comment. */
  lemma HwUncommented(yes: bool, reason: string)
    ensures Uncommented(HwText(yes, reason), false) == HwText(yes, reason)
  {
    if yes {
      UncommentedPlain("hw_renderable yes", "");
      assert "hw_renderable yes" + "" == HwText(true, reason);
    } else {
      ReasonUncommented(reason);
    }
  }

  lemma ReasonUncommented(reason: string)
    ensures Uncommented(HwText(false, reason), false) == HwText(false, reason)
  {
    var a := "hw_renderable no reason=";
    assert NoMarks(a) && a == "hw_renderable" + (" " + ("no" + (" " + "reason=")));
    hide Uncommented, Escape;
    var q := Escape(reason, '"') + "\"";
    UncommentedPlain(a, "\"" + q);
    UncommentedQuoted(reason, "");
    NoText();
    assert q + "" == q;
    QuoteOpens(q);
    HwJoined(a, q, reason);
  }

  lemma NoText()
    ensures Uncommented("", false) == ""
  {}

  lemma HwJoined(a: string, q: string, reason: string)
    requires a == "hw_renderable" + (" " + ("no" + (" " + "reason="))) && q == Escape(reason, '"') + "\""
    ensures HwText(false, reason) == a + ("\"" + q)
  {
    hide Escape;
    assert "reason=\"" == "reason=" + "\"";
  }

  lemma QuoteOpens(q: string)
    ensures Uncommented("\"" + q, false) == "\"" + Uncommented(q, true)
  {
    assert ("\"" + q)[1..] == q;
  }

  // ---- all lines -------------------------------------------------------------------------------------

  lemma {:induction false} ClocksRead(f: File, cs: seq<Clock>)
    requires HeaderTextOk(f.header) && f.clocks == [] && ClocksOk(Vec(HeadOf(f.header), cs, []))
    ensures ReadLines(f, ClockLines(cs)) == Some(f.(clocks := cs))
    decreases |cs|
  {
    hide HeaderTextOk, HeadOf, ReadLine, ClockText;
    if cs != [] {
      var init, c := cs[..|cs| - 1], cs[|cs| - 1];
      assert cs == init + [c];
      ClocksRead(f, init);
      ReadMore(f, ClockLines(init), ClockText(c));
      ClockReads(f.(clocks := init), c);
    }
  }

  lemma {:induction false} EventsRead(f: File, es: seq<Event>)
    requires HeaderTextOk(f.header) && f.events == [] && LabelsUnique(es)
    requires forall e | e in es :: EventOk(Vec(HeadOf(f.header), f.clocks, []), e) && Legible(e)
    ensures ReadLines(f, EventLines(es)) == Some(f.(events := es))
    decreases |es|
  {
    hide HeaderTextOk, HeadOf, ReadLine, EventLine, EventOk, Legible;
    if es != [] {
      var init, e := es[..|es| - 1], es[|es| - 1];
      assert es == init + [e];
      EventsRead(f, init);
      ReadMore(f, EventLines(init), EventLine(e));
      SameClocks(HeadOf(f.header), f.clocks, init, e);
      EventReads(f.(events := init), e);
    }
  }

  lemma SameClocks(h: Header, cs: seq<Clock>, es: seq<Event>, e: Event)
    ensures EventOk(Vec(h, cs, es), e) == EventOk(Vec(h, cs, []), e)
  {}

  lemma AllLegible(f: File)
    requires FileOk(f)
    ensures forall e | e in f.events :: EventOk(Vec(HeadOf(f.header), f.clocks, []), e) && Legible(e)
  {
    hide HeaderTextOk, HeadOf;
    forall e | e in f.events
      ensures EventOk(Vec(HeadOf(f.header), f.clocks, []), e) && Legible(e)
    {
      SameClocks(HeadOf(f.header), f.clocks, f.events, e);
    }
  }

  // ---- the round trip --------------------------------------------------------------------------------

  lemma QuoteOneLine(v: string)
    requires Representable(v)
    ensures OneLine(v) && OneLine(Quote(v))
  {
    EscapeOneLine(v, '"');
  }

  lemma HeaderOneLine(h: map<string, string>)
    requires forall k | k in h :: HeaderKey(k) && Representable(h[k])
    ensures OneLine(HeaderText(h))
  {
    hide Keys, Representable, Quote;
    KeysOf(h);
    var es := Entries(Keys(h), h);
    var ws := AllWritten(es);
    forall w | w in ws
      ensures OneLine(w)
    {
      var i :| 0 <= i < |ws| && ws[i] == w;
      assert Keys(h)[i] in Keys(h);
      QuoteOneLine(es[i].value);
    }
    JoinOneLine(" ", ws);
  }

  lemma {:induction false} ClocksOneLine(cs: seq<Clock>)
    ensures OneLines(ClockLines(cs))
    decreases |cs|
  {
    hide ClockText;
    if cs != [] {
      ClocksOneLine(cs[..|cs| - 1]);
      ClockClean(cs[|cs| - 1]);
    }
  }

  lemma {:induction false} EventsOneLine(es: seq<Event>)
    requires forall e | e in es :: Legible(e)
    ensures OneLines(EventLines(es))
    decreases |es|
  {
    hide EventLine, Legible;
    if es != [] {
      EventsOneLine(es[..|es| - 1]);
      EventClean(es[|es| - 1]);
    }
  }

  lemma HwOneLine(f: File)
    requires f.hw == Some(false) ==> Representable(f.reason)
    ensures OneLines(HwLines(f))
  {
    hide Escape, Representable;
    if f.hw == Some(false) {
      QuoteOneLine(f.reason);
      EscapeOneLine(f.reason, '"');
    }
  }

  /** A reason is kept only where it is written. */
  function Kept(f: File): File { f.(reason := if f.hw == Some(false) then f.reason else "") }

  lemma BodyReads(f: File)
    requires FileOk(f)
    ensures ReadLines(File(f.header, [], [], None, ""), Body(f)) == Some(Kept(f))
  {
    hide ReadLine, HeaderTextOk, HeadOf, ClockLines, EventLines;
    AllLegible(f);
    var f0 := File(f.header, [], [], None, "");
    var f1 := f0.(hw := f.hw, reason := Kept(f).reason);
    var f2 := f1.(clocks := f.clocks);
    HwsRead(f0, f);
    ClocksRead(f1, f.clocks);
    EventsRead(f2, f.events);
    ReadJoin(f0, HwLines(f), ClockLines(f.clocks));
    ReadJoin(f0, HwLines(f) + ClockLines(f.clocks), EventLines(f.events));
  }

  lemma HwsRead(f0: File, f: File)
    requires HeaderTextOk(f0.header) && f0.hw == None && f0.reason == ""
    ensures ReadLines(f0, HwLines(f)) == Some(f0.(hw := f.hw, reason := Kept(f).reason))
  {
    hide ReadLine, HeaderTextOk;
    if f.hw.Some? {
      HwReads(f0, f.hw.value, f.reason);
      ReadMore(f0, [], HwText(f.hw.value, f.reason));
      assert [] + [HwText(f.hw.value, f.reason)] == HwLines(f);
    }
  }

  lemma {:induction false} ReadJoin(f: File, a: seq<string>, b: seq<string>)
    requires HeaderTextOk(f.header)
    ensures ReadLines(f, a + b) == var r := ReadLines(f, a); if r.None? then None else ReadLines(r.value, b)
    decreases |a|
  {
    hide ReadLine, HeaderTextOk;
    if a == [] {
      assert a + b == b;
    } else {
      assert (a + b)[1..] == a[1..] + b && (a + b)[0] == a[0];
      var next := ReadLine(f, a[0]);
      if next.Some? { ReadJoin(next.value, a[1..], b); }
    }
  }

  lemma LoadsDumped(f: File)
    requires FileOk(f) && Writable(f)
    ensures Loads(Dumps(f).value) == Some(Kept(f))
  {
    var ls := [HeaderText(f.header)] + Body(f);
    TextLines(f);
    HeaderKeys(f);
    HeaderReads(f.header);
    BodyReads(f);
    hide HeaderText, Body, ReadLines, HeaderTextOk, HeadOf, Writable, ReadFirst, Dict, Pairs, NatOf, Lines, Join;
    assert ls[1..] == Body(f);
  }

  lemma HeaderKeys(f: File)
    requires Writable(f)
    ensures forall k | k in f.header :: HeaderKey(k)
  {
    hide HeaderKey;
  }

  lemma TextLines(f: File)
    requires FileOk(f) && Writable(f)
    ensures var ls := [HeaderText(f.header)] + Body(f); Lines(Join("\n", ls) + "\n") == ls
  {
    AllLegible(f);
    hide HeaderText, HwLines, ClockLines, EventLines, HeaderTextOk, HeadOf, Legible, OneLine, Representable, HeaderKey;
    HeaderOneLine(f.header);
    HwOneLine(f);
    ClocksOneLine(f.clocks);
    EventsOneLine(f.events);
    LinesJoined([HeaderText(f.header)] + Body(f));
  }

  /** A stimulus that passes the structure rules survives `loads(dumps(v))` exactly when no header value and
      no written reason holds a control character, and a reason is given only for `hw_renderable no`. */
  lemma RoundTrip(f: File)
    requires FileOk(f)
    ensures (Dumps(f).Some? && Loads(Dumps(f).value) == Some(f)) <==>
            (&& (forall k | k in f.header :: Representable(f.header[k]))
             && (f.reason == "" || (f.hw == Some(false) && Representable(f.reason))))
  {
    WritableIs(f);
    if Writable(f) { LoadsDumped(f); }
  }

  lemma WritableIs(f: File)
    requires FileOk(f)
    ensures Writable(f) <==> (forall k | k in f.header :: Representable(f.header[k])) && (f.hw == Some(false) ==> Representable(f.reason))
  {
    hide StructureOk, HeadOf, Representable, HeaderKey, IsLabel;
    LabelsLegible(f);
  }

  lemma LabelsLegible(f: File)
    requires FileOk(f)
    ensures forall e | e in f.events && e.Sample? :: IsLabel(e.name)
  {
    AllLegible(f);
    hide HeaderTextOk, HeadOf, EventOk, IsLabel, StructureOk;
  }
}
