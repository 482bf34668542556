/** The lines of a stimulus file, written and recognised (formats/xvec.py). The grammar's regular
    expressions are deterministic: each is followed by hand, one token at a time. */
module XvecLines {
  import opened Text
  import opened Wrap
  import opened Sorting
  import opened Stimulus
  import opened Decimal
  import opened XvecQuoting
  import V = XvecValues

  datatype Parsed<+T> = Fails | Gives(value: T) {
    predicate IsFailure() { Fails? }

    function PropagateFailure<U>(): Parsed<U>
      requires Fails?
    {
      Fails
    }

    function Extract(): T
      requires Gives?
    {
      value
    }
  }

  // ---- tokens ----------------------------------------------------------------------------------------

  function Past(s: string, word: string): Parsed<string> {
    if |word| <= |s| && s[..|word|] == word then Gives(s[|word|..]) else Fails
  }

  function Gap(s: string): Parsed<string> { if Run(s, Spaces) == 0 then Fails else Gives(s[Run(s, Spaces)..]) }

  /** Some digits, and what follows. */
  datatype Token = Token(text: string, rest: string)

  function Num(s: string): Parsed<Token> {
    var n := Run(s, Digits);
    if n == 0 then Fails else Gives(Token(s[..n], s[n..]))
  }

  /** Whitespace, a word and a number. */
  function Item(s: string, word: string): Parsed<Token> {
    var a :- Gap(s);
    var b :- Past(a, word);
    Num(b)
  }

  function NatOf(digits: string): nat { if All(digits, Digits) then Undec(digits) else 0 }

  lemma PastIs(word: string, rest: string)
    ensures Past(word + rest, word) == Gives(rest)
  {
    var s := word + rest;
    assert s[..|word|] == word && s[|word|..] == rest;
  }

  lemma GapIs(gap: string, rest: string)
    requires gap != "" && All(gap, Spaces) && Stops(rest, Spaces)
    ensures Gap(gap + rest) == Gives(rest)
  {
    RunIs(gap, rest, Spaces);
  }

  lemma NumIs(n: nat, rest: string)
    requires Stops(rest, Digits)
    ensures Num(Dec(n) + rest) == Gives(Token(Dec(n), rest)) && NatOf(Dec(n)) == n
  {
    DecReadsBack(n);
    RunIs(Dec(n), rest, Digits);
  }

  predicate Word(word: string) { word != "" && !IsSpace(word[0]) }

  lemma ItemIs(word: string, n: nat, rest: string)
    requires Word(word) && Stops(rest, Digits)
    ensures Item(" " + (word + (Dec(n) + rest)), word) == Gives(Token(Dec(n), rest)) && NatOf(Dec(n)) == n
  {
    var s := word + (Dec(n) + rest);
    assert s[0] == word[0];
    GapIs(" ", s);
    PastIs(word, Dec(n) + rest);
    NumIs(n, rest);
  }

  // ---- the first line --------------------------------------------------------------------------------

  /** The first line of a file of version 2: its magic word and its pairs. */
  function FirstText(magic: string, pairs: string): string { "#" + (" " + (magic + (" " + (Dec(2) + ("  " + pairs))))) }

  /** `_HEADER`: the version, and the pairs after it. */
  function ReadFirst(s: string, magic: string): Parsed<Token> {
    var a :- Past(s, "#");
    var b :- Past(LeftStrip(a), magic);
    var c :- Gap(b);
    var n :- Num(c);
    if n.rest == "" || !IsWord(n.rest[0]) then Gives(n) else Fails
  }

  lemma FirstBack(magic: string, pairs: string)
    requires Word(magic)
    ensures ReadFirst(FirstText(magic, pairs), magic) == Gives(Token(Dec(2), "  " + pairs)) && NatOf(Dec(2)) == 2
  {
    hide Past, Gap, Num, NatOf, Dec, Stops;
    var rest := "  " + pairs;
    var b := " " + (Dec(2) + rest);
    var a := magic + b;
    PastIs("#", " " + a);
    Blanks();
    assert a[0] == magic[0];
    StopsSolid(a);
    RunIs(" ", a, Spaces);
    PastIs(magic, b);
    DecStart(2, rest);
    GapIs(" ", Dec(2) + rest);
    assert rest == " " + (" " + pairs);
    StopsBlank(" " + pairs);
    NumIs(2, rest);
  }

  lemma DecStart(n: nat, rest: string)
    ensures Stops(Dec(n) + rest, Spaces)
  {
    assert (Dec(n) + rest)[0] == Dec(n)[0] && IsDigit(Dec(n)[0]);
  }

  // ---- clock lines -----------------------------------------------------------------------------------

  function ClockText(c: Clock): string {
    "clock" + (" " + ("clk" + (Signed(c.index) + (" " + ("period=" + (Signed(c.period) + (" " + ("phase=" + (Signed(c.phase)
    + (" " + ("duty=" + (Signed(c.duty) + (" " + ("mode=" + (if c.free then "free" else "stepped")))))))))))))))
  }

  /** The digits of the clock's name, and the clock. */
  datatype ClockRead = ClockRead(name: string, clock: Clock)

  /** `_CLOCK`. */
  function ReadClock(s: string): Parsed<ClockRead> {
    var a :- Past(s, "clock");
    var index :- Item(a, "clk");
    var period :- Item(index.rest, "period=");
    var phase :- Item(period.rest, "phase=");
    var duty :- Item(phase.rest, "duty=");
    var b :- Gap(duty.rest);
    var mode :- Past(b, "mode=");
    if mode == "free" || mode == "stepped" then
      Gives(ClockRead(index.text, Clock(NatOf(index.text), NatOf(period.text), NatOf(phase.text), NatOf(duty.text), mode == "free")))
    else Fails
  }

  lemma ClockBack(index: nat, period: nat, phase: nat, duty: nat, free: bool)
    ensures ReadClock(ClockText(Clock(index, period, phase, duty, free))) == Gives(ClockRead(Dec(index), Clock(index, period, phase, duty, free)))
  {
    hide Past, Gap, Item, NatOf, Dec, Stops;
    Blanks();
    var mode := if free then "free" else "stepped";
    var e := " " + ("mode=" + mode);
    var d := " " + ("duty=" + (Dec(duty) + e));
    var c := " " + ("phase=" + (Dec(phase) + d));
    var b := " " + ("period=" + (Dec(period) + c));
    PastIs("clock", " " + ("clk" + (Dec(index) + b)));
    StopsBlank("period=" + (Dec(period) + c));
    ItemIs("clk", index, b);
    StopsBlank("phase=" + (Dec(phase) + d));
    ItemIs("period=", period, c);
    StopsBlank("duty=" + (Dec(duty) + e));
    ItemIs("phase=", phase, d);
    StopsBlank("mode=" + mode);
    ItemIs("duty=", duty, e);
    StopsSolid("mode=" + mode);
    GapIs(" ", "mode=" + mode);
    PastIs("mode=", mode);
  }

  lemma Blanks()
    ensures All(" ", Spaces) && All("  ", Spaces)
  {}

  lemma StopsBlank(s: string)
    ensures Stops(" " + s, Digits) && Stops(" " + s, Solid) && Stops(" " + s, WordChars)
  {}

  lemma StopsSolid(s: string)
    requires Word(s)
    ensures Stops(s, Spaces)
  {}

  // ---- hardware lines --------------------------------------------------------------------------------

  datatype HwRead = HwRead(yes: bool, reason: string)

  /** `_HW`. */
  function ReadHw(s: string): Parsed<HwRead> {
    var a :- Past(s, "hw_renderable");
    var b :- Gap(a);
    if b == "yes" then Gives(HwRead(true, "")) else
    var c :- Past(b, "no");
    var d :- Gap(c);
    var q :- Past(d, "reason=\"");
    if QuotedLength(q) == Some(|q|) then Gives(HwRead(false, Unquote("\"" + q[..|q| - 1] + "\""))) else Fails
  }

  function HwText(yes: bool, reason: string): string {
    "hw_renderable" + (" " + (if yes then "yes" else "no" + (" " + ("reason=\"" + (Escape(reason, '"') + "\"")))))
  }

  lemma HwBack(yes: bool, reason: string)
    ensures ReadHw(HwText(yes, reason)) == Gives(HwRead(yes, if yes then "" else reason))
  {
    hide Past, Gap, Escape, Unquote, QuotedLength;
    Blanks();
    var q := Escape(reason, '"') + "\"";
    var no := "no" + (" " + ("reason=\"" + q));
    PastIs("hw_renderable", " " + (if yes then "yes" else no));
    assert no[0] == 'n';
    GapIs(" ", if yes then "yes" else no);
    PastIs("no", " " + ("reason=\"" + q));
    assert ("reason=\"" + q)[0] == 'r';
    GapIs(" ", "reason=\"" + q);
    PastIs("reason=\"", q);
    QuotedEnds(reason, "");
    assert q + "" == q && q[..|q| - 1] == Escape(reason, '"');
    UnquoteBack(reason);
  }

  // ---- event lines -----------------------------------------------------------------------------------

  /** The time, the marking, the operation and its operand. */
  datatype EventRead = EventRead(time: string, sim: bool, op: string, arg: string)

  datatype Operation = Operation(op: string, arg: string)

  function ReadOperation(s: string): Parsed<Operation> {
    var n := Run(s, WordChars);
    if n == 0 then Fails
    else if n == |s| then Gives(Operation(s, ""))
    else
      var arg :- Gap(s[n..]);
      Gives(Operation(s[..n], arg))
  }

  function ReadMarked(s: string): Parsed<Operation> {
    var a :- Past(s, "simultaneous");
    var b :- Gap(a);
    ReadOperation(b)
  }

  /** `_EVENT`. */
  function ReadEvent(s: string): Parsed<EventRead> {
    var a :- Past(s, "t=");
    var time :- Num(a);
    var b :- Gap(time.rest);
    var marked := ReadMarked(b);
    if marked.Gives? then Gives(EventRead(time.text, true, marked.value.op, Strip(marked.value.arg))) else
    var plain :- ReadOperation(b);
    Gives(EventRead(time.text, false, plain.op, Strip(plain.arg)))
  }

  function OperationText(o: Operation): string { o.op + (if o.arg == "" then "" else " " + o.arg) }

  function EventText(time: int, sim: bool, o: Operation): string {
    "t=" + (Signed(time) + (if sim then " " + ("simultaneous" + ("  " + OperationText(o))) else "  " + OperationText(o)))
  }

  /** The operations there are begin in no way like the marking. */
  predicate Op(op: string) { |op| >= 2 && All(op, WordChars) && op[1] != 'i' }

  lemma OperationBack(o: Operation)
    requires Op(o.op) && Trim(o.arg)
    ensures ReadOperation(OperationText(o)) == Gives(o)
  {
    if o.arg == "" {
      assert o.op + "" == o.op;
      RunIs(o.op, "", WordChars);
    } else {
      RunIs(o.op, " " + o.arg, WordChars);
      GapIs(" ", o.arg);
    }
  }

  lemma NotMarked(o: Operation)
    requires Op(o.op)
    ensures ReadMarked(OperationText(o)) == Fails && Word(OperationText(o))
  {
    var s := OperationText(o);
    assert s[0] == o.op[0] && s[1] == o.op[1];
    assert Belongs(o.op[0], WordChars);
    assert "simultaneous"[1] == 'i';
    if |s| >= 12 { assert s[..12][1] == s[1]; }
  }

  lemma EventBack(time: nat, sim: bool, o: Operation)
    requires Op(o.op) && Trim(o.arg)
    ensures ReadEvent(EventText(time, sim, o)) == Gives(EventRead(Dec(time), sim, o.op, o.arg)) && NatOf(Dec(time)) == time
  {
    hide Past, Gap, Num, ReadOperation, OperationText, Op, Dec, NatOf, Strip, Stops, Trim;
    Blanks();
    OperationBack(o);
    NotMarked(o);
    StripTrim(o.arg);
    var t := OperationText(o);
    var m := "simultaneous" + ("  " + t);
    var rest := if sim then " " + m else "  " + t;
    PastIs("t=", Dec(time) + rest);
    assert "  " + t == " " + (" " + t);
    StopsBlank(m);
    StopsBlank(" " + t);
    NumIs(time, rest);
    StopsSolid(t);
    GapIs("  ", t);
    if sim {
      assert m[0] == 's';
      StopsSolid(m);
      GapIs(" ", m);
      PastIs("simultaneous", "  " + t);
    }
  }

  // ---- operands --------------------------------------------------------------------------------------

  /** The index of a clock's name: `clk`, and its number without leading zeros. */
  function ClockName(s: string): Parsed<nat> {
    var a :- Past(s, "clk");
    if a != "" && All(a, Digits) && Dec(NatOf(a)) == a then Gives(NatOf(a)) else Fails
  }

  function NameText(k: int): string { "clk" + Signed(k) }

  lemma NameBack(k: nat)
    ensures ClockName(NameText(k)) == Gives(k)
  {
    PastIs("clk", Dec(k));
    DecReadsBack(k);
  }

  datatype SetRead = SetRead(msb: nat, lsb: nat, value: string)

  /** `_SET`. */
  function ReadSet(s: string): Parsed<SetRead> {
    var a :- Past(s, "in[");
    var msb :- Num(a);
    var range := Past(msb.rest, ":");
    var lsb :- if range.Gives? then Num(range.value) else Gives(msb);
    var value :- Past(lsb.rest, "]=");
    if value != "" && All(value, Solid) then Gives(SetRead(NatOf(msb.text), NatOf(lsb.text), value)) else Fails
  }

  function SetText(msb: int, lsb: int, value: string): string {
    "in[" + (Signed(msb) + (if msb == lsb then "]=" + value else ":" + (Signed(lsb) + ("]=" + value))))
  }

  lemma SetBack(msb: nat, lsb: nat, value: string)
    requires value != "" && All(value, Solid)
    ensures ReadSet(SetText(msb, lsb, value)) == Gives(SetRead(msb, lsb, value))
  {
    hide NatOf, Dec, Num, All;
    var end := "]=" + value;
    var rest := if msb == lsb then end else ":" + (Dec(lsb) + end);
    PastIs("in[", Dec(msb) + rest);
    Brackets(value, Dec(lsb) + end);
    NumIs(msb, rest);
    PastIs("]=", value);
    if msb != lsb {
      PastIs(":", Dec(lsb) + end);
      NumIs(lsb, end);
    }
  }

  lemma Brackets(value: string, rest: string)
    ensures Stops("]=" + value, Digits) && Stops(":" + rest, Digits) && Past("]=" + value, ":") == Fails
  {
    assert ("]=" + value)[..1][0] == ']';
  }

  /** `_EDGE`. */
  datatype EdgeRead = EdgeRead(clk: nat, rise: bool)

  function ReadEdge(s: string): Parsed<EdgeRead> {
    var a :- Past(s, "clk");
    var n :- Num(a);
    var b :- Gap(n.rest);
    if (b == "r" || b == "f") && Dec(NatOf(n.text)) == n.text then Gives(EdgeRead(NatOf(n.text), b == "r")) else Fails
  }

  function EdgeText(clk: int, rise: bool): string { "clk" + (Signed(clk) + (" " + (if rise then "r" else "f"))) }

  lemma EdgeBack(clk: nat, rise: bool)
    ensures ReadEdge(EdgeText(clk, rise)) == Gives(EdgeRead(clk, rise))
  {
    hide NatOf, Dec, Num, Gap, Past, Stops;
    var b := if rise then "r" else "f";
    PastIs("clk", Dec(clk) + (" " + b));
    StopsBlank(b);
    NumIs(clk, " " + b);
    Blanks();
    StopsSolid(b);
    GapIs(" ", b);
  }

  function SignalText(s: Signal): string { match s case GSR => "GSR" case GTS => "GTS" case GRESTORE => "GRESTORE" }

  datatype GlblRead = GlblRead(sig: Signal, level: bool)

  /** `_GLBL`. */
  function ReadGlbl(s: string): Parsed<GlblRead> {
    if s == "GSR=0" then Gives(GlblRead(GSR, false)) else if s == "GSR=1" then Gives(GlblRead(GSR, true))
    else if s == "GTS=0" then Gives(GlblRead(GTS, false)) else if s == "GTS=1" then Gives(GlblRead(GTS, true))
    else if s == "GRESTORE=0" then Gives(GlblRead(GRESTORE, false)) else if s == "GRESTORE=1" then Gives(GlblRead(GRESTORE, true))
    else Fails
  }

  function GlblText(sig: Signal, level: bool): string { SignalText(sig) + "=" + (if level then "1" else "0") }

  lemma GlblBack(sig: Signal, level: bool)
    ensures ReadGlbl(GlblText(sig, level)) == Gives(GlblRead(sig, level))
  {
    var s := GlblText(sig, level);
    assert s[1] == (match sig case GSR => 'S' case GTS => 'T' case GRESTORE => 'R') && s[|s| - 1] == (if level then '1' else '0');
  }

  // ---- events ----------------------------------------------------------------------------------------

  /** `_fmt`: the operation of an event. */
  function OperationOf(e: Event): Operation {
    match e
    case Set(_, _, lsb, msb, value) => Operation("set", SetText(msb, lsb, V.Encode(value)))
    case Edge(_, _, clk, rise) => Operation("edge", EdgeText(clk, rise))
    case Glbl(_, _, sig, level) => Operation("glbl", GlblText(sig, level))
    case Sample(_, _, name) => Operation("sample", name)
    case ClockStart(_, _, clk) => Operation("clock_start", NameText(clk))
    case ClockStop(_, _, clk) => Operation("clock_stop", NameText(clk))
    case End(_, _) => Operation("end", "")
  }

  /** `_event`: the event of an operation, its own rules not yet checked. */
  function EventOf(r: EventRead, nin: int): Option<Event> {
    var t := NatOf(r.time);
    if r.op == "set" then
      var s := ReadSet(r.arg);
      if s.Fails? || s.value.lsb > s.value.msb || s.value.msb >= nin then None else
      var v := V.Decode(s.value.value, s.value.msb - s.value.lsb + 1);
      if v.None? then None else Some(Set(t, r.sim, s.value.lsb, s.value.msb, v.value))
    else if r.op == "edge" then
      var s := ReadEdge(r.arg);
      if s.Fails? then None else Some(Edge(t, r.sim, s.value.clk, s.value.rise))
    else if r.op == "glbl" then
      var s := ReadGlbl(r.arg);
      if s.Fails? then None else Some(Glbl(t, r.sim, s.value.sig, s.value.level))
    else if r.op == "end" then (if r.arg == "" then Some(End(t, r.sim)) else None)
    else if r.op == "sample" then Some(Sample(t, r.sim, r.arg))
    else if r.op == "clock_start" || r.op == "clock_stop" then
      var k := ClockName(r.arg);
      if k.Fails? then None
      else Some(if r.op == "clock_start" then ClockStart(t, r.sim, k.value) else ClockStop(t, r.sim, k.value))
    else None
  }

  // ---- the characters of a written line --------------------------------------------------------------

  predicate Clean(c: char) { ' ' <= c <= '~' && c != '#' && c != '"' }

  predicate AllClean(s: string) { forall i :: 0 <= i < |s| ==> Clean(s[i]) }

  /** A line that is read as it was written. */
  predicate LineOk(l: string) { l != "" && OneLine(l) && Trim(l) && Uncommented(l, false) == l }

  lemma CleanLine(l: string)
    requires l != "" && AllClean(l) && l[0] != ' ' && l[|l| - 1] != ' '
    ensures LineOk(l)
  {
    UncommentedPlain(l, "");
    assert l + "" == l;
    assert Clean(l[0]) && Clean(l[|l| - 1]);
  }

  lemma CleanJoin(a: string, b: string)
    requires AllClean(a) && AllClean(b)
    ensures AllClean(a + b)
  {}

  lemma SignedClean(i: int)
    ensures AllClean(Signed(i))
  {}

  lemma ClockClean(c: Clock)
    ensures LineOk(ClockText(c))
  {
    hide Signed, LineOk, AllClean;
    var e := " " + ("mode=" + (if c.free then "free" else "stepped"));
    WordsClean();
    ModeClean(c.free);
    ItemClean("duty=", c.duty, e);
    var d := " " + ("duty=" + (Signed(c.duty) + e));
    ItemClean("phase=", c.phase, d);
    var f := " " + ("phase=" + (Signed(c.phase) + d));
    ItemClean("period=", c.period, f);
    var g := " " + ("period=" + (Signed(c.period) + f));
    ItemClean("clk", c.index, g);
    var h := " " + ("clk" + (Signed(c.index) + g));
    CleanJoin("clock", h);
    Ending("clock", h);
    CleanLine("clock" + h);
  }

  /** What a written line ends in. */
  predicate Ends(s: string) { s != "" && s[|s| - 1] != ' ' }

  lemma WordsClean()
    ensures AllClean("clock") && AllClean("clk") && AllClean("period=") && AllClean("phase=") && AllClean("duty=") && AllClean(" ")
  {}

  lemma ModeClean(free: bool)
    ensures var e := " " + ("mode=" + (if free then "free" else "stepped")); AllClean(e) && Ends(e)
  {}

  lemma Ending(a: string, b: string)
    requires Ends(b)
    ensures Ends(a + b)
  {}

  lemma ItemClean(word: string, n: int, rest: string)
    requires AllClean(word) && AllClean(rest) && Ends(rest)
    ensures var s := " " + (word + (Signed(n) + rest)); AllClean(s) && Ends(s)
  {
    hide Signed;
    SignedClean(n);
    assert AllClean(" ");
    CleanJoin(Signed(n), rest);
    CleanJoin(word, Signed(n) + rest);
  }

  // ---- event lines read back -------------------------------------------------------------------------

  function EventLine(e: Event): string { EventText(e.t, e.sim, OperationOf(e)) }

  /** What of `EventOk` the reading relies on. */
  predicate Legible(e: Event) {
    e.t >= 0
    && match e
       case Set(_, _, lsb, msb, value) => 0 <= lsb <= msb && |value| == msb - lsb + 1
       case Edge(_, _, clk, _) => clk >= 0
       case Sample(_, _, name) => IsLabel(name)
       case ClockStart(_, _, clk) => clk >= 0
       case ClockStop(_, _, clk) => clk >= 0
       case _ => true
  }

  lemma {:induction false} CharsClean(v: seq<Logic>)
    ensures AllClean(V.Chars(v)) && All(V.Chars(v), Solid) && |V.Chars(v)| == |v|
  {
    if v != [] { CharsClean(v[..|v| - 1]); }
  }

  lemma EncodeClean(v: seq<Logic>)
    requires v != []
    ensures AllClean(V.Encode(v)) && All(V.Encode(v), Solid) && V.Encode(v) != ""
  {
    hide V.Show, V.Chars;
    CharsClean(v);
    var h := V.Show(V.NatOf(v), V.Hex);
    assert forall i :: 0 <= i < |h| ==> V.DigitOf(h[i]) < 16;
  }

  lemma ArgClean(e: Event)
    requires Legible(e)
    ensures var o := OperationOf(e); Op(o.op) && AllClean(o.op) && AllClean(o.arg) && Trim(o.arg)
  {
    hide Signed, V.Encode, SetText, EdgeText, GlblText, NameText;
    OpsClean();
    match e
    case Set(_, _, lsb, msb, value) =>
      EncodeClean(value);
      SetClean(msb, lsb, V.Encode(value));
    case Edge(_, _, clk, rise) => EdgeClean(clk, rise);
    case Glbl(_, _, sig, level) => GlblClean(sig, level);
    case Sample(_, _, name) => LabelClean(name);
    case ClockStart(_, _, clk) => NameClean(clk);
    case ClockStop(_, _, clk) => NameClean(clk);
    case End(_, _) =>
  }

  lemma OpsClean()
    ensures forall op | op in ["set", "edge", "glbl", "sample", "clock_start", "clock_stop", "end"] :: Op(op) && AllClean(op)
  {}

  lemma LabelClean(name: string)
    requires IsLabel(name)
    ensures AllClean(name) && Trim(name)
  {
    assert forall i :: 0 <= i < |name| ==> LabelChar(name[i]);
  }

  lemma SetClean(msb: int, lsb: int, value: string)
    requires AllClean(value) && All(value, Solid) && value != ""
    ensures AllClean(SetText(msb, lsb, value)) && Trim(SetText(msb, lsb, value))
  {
    hide Signed;
    SignedClean(msb);
    SignedClean(lsb);
    var end := "]=" + value;
    assert AllClean(end) && end[|end| - 1] == value[|value| - 1];
    assert Belongs(value[|value| - 1], Solid);
    var rest := if msb == lsb then end else ":" + (Signed(lsb) + end);
    assert AllClean(rest) && rest[|rest| - 1] == value[|value| - 1];
    var s := SetText(msb, lsb, value);
    assert s == "in[" + (Signed(msb) + rest);
    assert s[0] == 'i' && s[|s| - 1] == rest[|rest| - 1];
  }

  lemma EdgeClean(clk: int, rise: bool)
    ensures AllClean(EdgeText(clk, rise)) && Trim(EdgeText(clk, rise))
  {
    hide Signed;
    SignedClean(clk);
  }

  lemma GlblClean(sig: Signal, level: bool)
    ensures AllClean(GlblText(sig, level)) && Trim(GlblText(sig, level))
  {}

  lemma NameClean(clk: int)
    ensures AllClean(NameText(clk)) && Trim(NameText(clk))
  {
    SignedClean(clk);
  }

  /** An event's line is read as it was written. */
  lemma EventClean(e: Event)
    requires Legible(e)
    ensures LineOk(EventLine(e))
  {
    hide OperationOf, Signed, LineOk, Legible, AllClean, Ends, OperationText, Op, Trim;
    ArgClean(e);
    SignedClean(e.t);
    MarkClean();
    var o := OperationOf(e);
    var t := OperationText(o);
    OperationClean(o);
    CleanJoin("  ", t);
    Ending("  ", t);
    var m := "simultaneous" + ("  " + t);
    CleanJoin("simultaneous", "  " + t);
    Ending("simultaneous", "  " + t);
    CleanJoin(" ", m);
    Ending(" ", m);
    var rest := if e.sim then " " + m else "  " + t;
    CleanJoin(Signed(e.t), rest);
    Ending(Signed(e.t), rest);
    CleanJoin("t=", Signed(e.t) + rest);
    Ending("t=", Signed(e.t) + rest);
    EndsOk("t=" + (Signed(e.t) + rest));
  }

  lemma MarkClean()
    ensures AllClean("t=") && AllClean("simultaneous") && AllClean(" ") && AllClean("  ")
  {}

  lemma EndsOk(l: string)
    requires AllClean(l) && Ends(l) && l[0] != ' '
    ensures LineOk(l)
  {
    CleanLine(l);
  }

  lemma OperationClean(o: Operation)
    requires Op(o.op) && AllClean(o.op) && AllClean(o.arg) && Trim(o.arg)
    ensures AllClean(OperationText(o)) && Ends(OperationText(o))
  {
    assert Belongs(o.op[|o.op| - 1], WordChars);
  }

  /** An event is read back from its line. */
  lemma EventReads(e: Event, nin: int)
    requires Legible(e) && (e.Set? ==> e.msb < nin)
    ensures ReadEvent(EventLine(e)).Gives? && EventOf(ReadEvent(EventLine(e)).value, nin) == Some(e)
  {
    hide ReadEvent, EventText, ReadSet, ReadEdge, ReadGlbl, ClockName, SetText, EdgeText, GlblText, NameText, V.Encode, V.Decode, NatOf, IsLabel;
    ArgClean(e);
    EventBack(e.t, e.sim, OperationOf(e));
    match e
    case Set(_, _, lsb, msb, value) =>
      EncodeClean(value);
      SetBack(msb, lsb, V.Encode(value));
      V.ValueBack(value);
    case Edge(_, _, clk, rise) => EdgeBack(clk, rise);
    case Glbl(_, _, sig, level) => GlblBack(sig, level);
    case Sample(_, _, name) =>
    case ClockStart(_, _, clk) => NameBack(clk);
    case ClockStop(_, _, clk) => NameBack(clk);
    case End(_, _) =>
  }
}
