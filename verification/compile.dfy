/** Compiling a stimulus into the operation words of the testbench (stimcompile.py). */
module Compile {
  import opened Wrap
  import opened Sorting
  import opened Stimulus
  import opened Validation
  import opened Words
  import Validator

  const END_MARGIN := 1_000

  function Code(x: Logic): int {
    match x case L0 => 0 case L1 => 1 case LX => 2 case LZ => 3
  }

  function SigCode(s: Signal): int {
    match s case GSR => 0 case GTS => 1 case GRESTORE => 2
  }

  /** One SET a bit, least significant first. */
  function SetWords(lsb: int, value: seq<Logic>, t: int): seq<Word>
    decreases |value|
  {
    if value == [] then []
    else [Word(SET, lsb, Code(value[|value| - 1]), t)] + SetWords(lsb + 1, value[..|value| - 1], t)
  }

  function FindClock(cs: seq<Clock>, index: int): Option<Clock> {
    if cs == [] then None else if cs[0].index == index then Some(cs[0]) else FindClock(cs[1..], index)
  }

  function ClockWords(c: Clock, t: int): seq<Word> {
    [Word(CLK_HI, c.index, High(c), t), Word(CLK_START, c.index, c.period - High(c), t)]
  }

  /** The words of one event, the number of samples before it being `n`. */
  function WordsOfEvent(v: Vec, e: Event, n: nat): seq<Word> {
    match e
    case Set(t, _, lsb, _, value) => SetWords(lsb, value, t)
    case Edge(t, _, clk, rise) => [Word(EDGE, clk, if rise then 1 else 0, t)]
    case Glbl(t, _, sig, level) => [Word(GLBL, SigCode(sig), if level then 1 else 0, t)]
    case Sample(t, _, _) => [Word(SAMPLE, n, 0, t)]
    case ClockStart(t, _, clk) =>
      var c := FindClock(v.clocks, clk); if c.Some? then ClockWords(c.value, t) else []
    case ClockStop(t, _, clk) => [Word(CLK_STOP, clk, 0, t)]
    case End(t, _) => [Word(END, 0, 0, t)]
  }

  function LabelsOf(es: seq<Event>): seq<string> {
    if es == [] then [] else (if es[0].Sample? then [es[0].name] else []) + LabelsOf(es[1..])
  }

  function EventWords(v: Vec, es: seq<Event>, n: nat): seq<Word>
    decreases es
  {
    if es == [] then []
    else WordsOfEvent(v, es[0], n) + EventWords(v, es[1..], if es[0].Sample? then n + 1 else n)
  }

  /** The words that start the clocks no event starts. */
  function ImplicitWords(v: Vec, runs: seq<Span>): seq<Word>
    decreases runs
  {
    if runs == [] then []
    else (if Explicit(v, runs[0].clock.index) then [] else ClockWords(runs[0].clock, runs[0].start)) + ImplicitWords(v, runs[1..])
  }

  predicate Ended(v: Vec) { v.events != [] && v.events[|v.events| - 1].End? }

  /** The END appended to a stimulus without an `end`. */
  function EndWords(v: Vec): seq<Word> {
    if Ended(v) then [] else
    [Word(END, 0, 0, (if v.events == [] then v.header.settle else v.events[|v.events| - 1].t) + END_MARGIN)]
  }

  function WordsOf(v: Vec): seq<Word> {
    EventWords(v, v.events, 0) + ImplicitWords(v, FreeRuns(v)) + EndWords(v)
  }

  /** `compile_vec` refuses a stimulus with an error, a free clock without a high or a low phase, and
      a word that does not fit. */
  predicate Accepts(v: Vec, m: DutMap)
    requires Numbered(m)
  {
    && ErrorFree(v, m)
    && (forall c | c in v.clocks && c.free :: 0 < High(c) < c.period)
    && (forall c, w | c in v.clocks && c.free && w in ClockWords(c, 0) :: Fits(w))
    && (forall w | w in WordsOf(v) :: Fits(w))
  }

  datatype Compiled = Compiled(words: seq<int>, labels: seq<string>)

  /** The words of one `set`. */
  method CompileSet(lsb: int, value: seq<Logic>, t: int) returns (words: seq<Word>)
    ensures words == SetWords(lsb, value, t)
  {
    words := [];
    assert value[..|value|] == value;
    for i := 0 to |value|
      invariant words + SetWords(lsb + i, value[..|value| - i], t) == SetWords(lsb, value, t)
    {
      var rest := value[..|value| - i];
      assert rest[|rest| - 1] == value[|value| - 1 - i] && rest[..|rest| - 1] == value[..|value| - (i + 1)];
      var w := Word(SET, lsb + i, Code(value[|value| - 1 - i]), t);
      ghost var tail := SetWords(lsb + i + 1, value[..|value| - (i + 1)], t);
      assert words + ([w] + tail) == words + [w] + tail;
      words := words + [w];
    }
    assert value[..0] == [];
  }

  /** The loop over the events. */
  method CompileEvents(v: Vec) returns (words: seq<Word>, labels: seq<string>)
    ensures words == EventWords(v, v.events, 0) && labels == LabelsOf(v.events)
  {
    hide WordsOfEvent;
    words, labels := [], [];
    for i := 0 to |v.events|
      invariant words + EventWords(v, v.events[i..], |labels|) == EventWords(v, v.events, 0)
      invariant labels + LabelsOf(v.events[i..]) == LabelsOf(v.events)
    {
      var e := v.events[i];
      EventStep(v, i, |labels|, words, labels);
      var ws := WordsOfEvent(v, e, |labels|);
      if e.Set? {
        ws := CompileSet(e.lsb, e.value, e.t);
        SetEvent(v, e, |labels|);
      }
      words := words + ws;
      if e.Sample? { labels := labels + [e.name]; }
    }
  }

  /** The loop over the runs. */
  method CompileImplicit(v: Vec) returns (words: seq<Word>)
    ensures words == ImplicitWords(v, FreeRuns(v))
  {
    hide ClockWords, FreeRuns, Explicit, ImplicitWords;
    words := [];
    var runs := FreeRuns(v);
    NoRuns(v, runs, words);
    for i := 0 to |runs|
      invariant words + ImplicitWords(v, runs[i..]) == ImplicitWords(v, runs)
    {
      RunStep(v, runs, i, words);
      if !Explicit(v, runs[i].clock.index) { words := words + ClockWords(runs[i].clock, runs[i].start); }
    }
    NoRuns(v, runs, words);
  }

  /** `compile_vec`; None is a refusal. */
  method CompileVec(v: Vec, m: DutMap) returns (r: Option<Compiled>)
    requires Numbered(m)
    ensures r.Some? <==> Accepts(v, m)
    ensures r.Some? ==> r.value == Compiled(Sort(Image(WordsOf(v)), ImageTime), LabelsOf(v.events))
  {
    hide ErrorFree, Numbered, EventWords, ImplicitWords, FreeRuns, Sort, Image, High, ClockWords;
    var report := Validator.Validate(v, m);
    if !report.Ok() { return None; }
    if exists c :: c in v.clocks && c.free && !(0 < High(c) < c.period) { return None; }
    if exists c, w :: c in v.clocks && c.free && w in ClockWords(c, 0) && !Fits(w) { return None; }
    var words, labels := CompileEvents(v);
    var implicit := CompileImplicit(v);
    words := words + implicit + EndWords(v);
    if exists w :: w in words && !Fits(w) { return None; }
    r := Some(Compiled(Sort(Image(words), ImageTime), labels));
  }

  lemma SetEvent(v: Vec, e: Event, n: nat)
    requires e.Set?
    ensures WordsOfEvent(v, e, n) == SetWords(e.lsb, e.value, e.t)
  {}

  lemma EventStep(v: Vec, i: nat, n: nat, words: seq<Word>, labels: seq<string>)
    requires i < |v.events|
    ensures var e := v.events[i];
            && words + EventWords(v, v.events[i..], n)
               == words + WordsOfEvent(v, e, n) + EventWords(v, v.events[i + 1..], if e.Sample? then n + 1 else n)
            && labels + LabelsOf(v.events[i..]) == labels + (if e.Sample? then [e.name] else []) + LabelsOf(v.events[i + 1..])
  {
    assert v.events[i..][1..] == v.events[i + 1..] && v.events[i..][0] == v.events[i];
  }

  lemma NoRuns(v: Vec, runs: seq<Span>, words: seq<Word>)
    ensures runs[0..] == runs && words + ImplicitWords(v, runs[|runs|..]) == words && [] + ImplicitWords(v, runs) == ImplicitWords(v, runs)
  {}

  lemma RunStep(v: Vec, runs: seq<Span>, i: nat, words: seq<Word>)
    requires i < |runs|
    ensures words + ImplicitWords(v, runs[i..])
            == words + (if Explicit(v, runs[i].clock.index) then [] else ClockWords(runs[i].clock, runs[i].start))
               + ImplicitWords(v, runs[i + 1..])
  {
    assert runs[i..][1..] == runs[i + 1..] && runs[i..][0] == runs[i];
  }
}
