/** One time step of the testbench running a compiled stimulus: the operation process shows what the
    events of the step show, whatever the generators do. */
module StepExecution {
  import opened Wrap
  import opened Sorting
  import opened Stimulus
  import opened Validation
  import opened Words
  import opened Compile
  import opened Generators
  import opened Schedule
  import opened Timesteps
  import opened Execution
  import T = Testbench
  import G = Golden

  // ---- what a compiled stimulus satisfies ------------------------------------------------------------

  /** Compiled, and nothing in it marked `simultaneous`. */
  ghost predicate Plainly(v: Vec, m: DutMap) { Numbered(m) && Accepts(v, m) && Unmarked(v) }

  lemma PlainlyClean(v: Vec, m: DutMap)
    requires Plainly(v, m)
    ensures Clean(v) && ClocksOk(v) && v.header.settle >= 0 && v.header.nin >= 0 && v.header.nclk >= 0
    ensures forall c | c in v.clocks && c.free :: Sound(c)
  {
    hide WordsOf, Timeline;
    forall e | e in v.events
      ensures e.t >= 0
    {
      assert EventOk(v, e);
    }
    forall i, j | 0 <= i < j < |v.events|
      ensures Time(v.events[i]) <= Time(v.events[j])
    {}
    Periods(v);
  }

  /** Stepped lines stand where their remaining edges alternate from; free ones are never stepped. */
  ghost predicate Lines(v: Vec, step: seq<bool>, t: int)
    requires ClocksOk(v)
  {
    forall c | c in v.clocks && 0 <= c.index < |step| ::
      if c.free then !step[c.index] else Alternates(From(Timeline(v), t, Time), c.index, step[c.index])
  }

  // ---- the operation process -------------------------------------------------------------------------

  /** What the events of a time step ask of the lines: an edge changes one that no generator drives. */
  predicate EdgesReal(s: T.Tb, es: seq<Event>)
    requires |s.step| == |s.gens|
  {
    forall e | e in es && e.Edge? :: 0 <= e.clk < |s.step| && s.step[e.clk] != e.rise && !s.gens[e.clk].high
  }

  function Moved(bits: seq<Logic>, after: seq<Logic>, t: int): seq<T.Obs> {
    if after != bits then [T.Inputs(t, after)] else []
  }

  lemma {:induction false} SetsShowNothing(es: seq<Event>)
    requires forall e | e in es :: e.Set?
    ensures G.ShownAll(es) == []
    ensures forall k, l :: LevelAfter(es, k, l) == l
    decreases es
  {
    if es != [] {
      assert es[0] in es;
      SetsShowNothing(es[1..]);
    }
  }

  /** One event that is no set. */
  lemma ExecOne(v: Vec, s: T.Tb, e: Event, n: nat, labels: seq<string>)
    requires |s.step| == |s.gens| && s.vec == s.nxt && !e.Set? && !e.End? && EdgesReal(s, [e])
    requires e.Sample? ==> n < |labels| && labels[n] == e.name
    ensures var r := ExecAll(s, WordsOfEvent(v, e, n));
            && r.nxt == r.vec == s.nxt && r.done == s.done
            && (forall k: nat | k < |s.step| :: r.step[k] == LevelAfter([e], k, s.step[k]))
    ensures ExecLogs(s, WordsOfEvent(v, e, n), e.t, labels) == G.Shown(e)
  {
    var ws := WordsOfEvent(v, e, n);
    assert [e][1..] == [];
    if e.ClockStart? {
      FoundIndex(v.clocks, e.clk);
      ExecClocking(s, ws, e.t, labels);
    } else {
      assert ws[1..] == [];
      assert ExecAll(s, ws) == T.Exec(s, ws[0]);
      assert ExecLogs(s, ws, e.t, labels) == T.ExecLog(s, ws[0], e.t, labels) + [];
      assert e.Edge? ==> e in [e];
      if e.Glbl? { assert T.SigOf(SigCode(e.sig)) == e.sig; }
    }
  }

  /** The events of a time step: sets at once, or one other event. */
  lemma ExecEvents(v: Vec, s: T.Tb, es: seq<Event>, n: nat, t: int, labels: seq<string>)
    requires |s.step| == |s.gens| && s.vec == s.nxt && EdgesReal(s, es)
    requires forall e | e in es :: e.t == t && !e.End?
    requires |es| > 1 ==> forall e | e in es :: e.Set?
    requires |es| == 1 && es[0].Sample? ==> n < |labels| && labels[n] == es[0].name
    ensures var r := ExecAll(s, EventWords(v, es, n));
            && r.nxt == G.ApplySets(s.nxt, es) && r.done == s.done
            && (forall k: nat | k < |s.step| :: r.step[k] == LevelAfter(es, k, s.step[k]))
            && ExecLogs(s, EventWords(v, es, n), t, labels) + T.CommitLog(r, t)
               == Moved(s.nxt, G.ApplySets(s.nxt, es), t) + G.ShownAll(es)
  {
    if |es| == 1 && !es[0].Set? {
      var e := es[0];
      assert e in es && es == [e] && es[1..] == [];
      assert EventWords(v, es, n) == WordsOfEvent(v, e, n);
      ExecOne(v, s, e, n, labels);
      assert G.ShownAll(es) == G.Shown(e) + [];
      assert G.ApplySets(s.nxt, es) == s.nxt;
      assert [] + G.Shown(e) == G.Shown(e) + [] == G.Shown(e);
    } else {
      assert |es| == 1 ==> es[0] in es && forall e | e in es :: e == es[0];
      assert forall e | e in es :: e.Set?;
      ExecSets(v, s, es, n, t, labels);
      SetsShowNothing(es);
      var mv := Moved(s.nxt, G.ApplySets(s.nxt, es), t);
      assert [] + mv == mv + [] == mv;
    }
  }

  /** Some words, then clock words. */
  lemma RunBoth(s: T.Tb, a: seq<Word>, b: seq<Word>, rest: seq<Word>, t: int, labels: seq<string>)
    requires |s.step| == |s.gens| && !s.done && rest != [] && rest[0].t > t
    requires (forall w | w in a :: w.t == t && w.op != END) && (forall w | w in b :: w.t == t && Clocking(w))
    ensures var mid, r := ExecAll(s, a), T.Main(s, a + b + rest, t);
            && r.nxt == r.vec == mid.nxt && r.step == mid.step && r.done == mid.done
            && (forall k: nat | k < |s.gens| :: r.gens[k] == GenWords(s.gens[k], a + b, k))
            && T.MainLog(s, a + b + rest, t, labels) == ExecLogs(s, a, t, labels) + T.CommitLog(mid, t)
  {
    hide T.CommitLog, T.Exec, T.ExecLog, T.MainLog, T.Main, GenWords, ExecAll, ExecLogs;
    var mid := ExecAll(s, a);
    ExecClocking(mid, b, t, labels);
    ExecJoin(s, a, b, t, labels);
    MainRuns(s, a + b, rest, t, labels);
    forall k: nat | k < |s.gens|
      ensures ExecAll(s, a + b).gens[k] == GenWords(s.gens[k], a + b, k)
    {
      ExecGens(s, a + b, k);
    }
    var x, y, z := ExecLogs(s, a, t, labels), ExecLogs(mid, b, t, labels), T.CommitLog(ExecAll(mid, b), t);
    assert x + y + z == x + (y + z);
  }

  /** One time step of the operation process without END. */
  lemma MainStep(v: Vec, s: T.Tb, t: int, rest: seq<Word>, labels: seq<string>)
    requires |s.step| == |s.gens| && s.vec == s.nxt && !s.done && EdgesReal(s, EventsAt(v, t))
    requires Clean(v) && (forall e | e in EventsAt(v, t) :: !e.End?)
    requires labels == LabelsOf(v.events) && rest != [] && rest[0].t > t
    ensures var r := T.Main(s, WordsAt(v, t) + rest, t);
            && r.nxt == r.vec == G.ApplySets(s.nxt, EventsAt(v, t)) && !r.done
            && (forall k: nat | k < |s.step| :: r.step[k] == LevelAfter(EventsAt(v, t), k, s.step[k]))
            && (forall k: nat | k < |s.gens| :: r.gens[k] == GenWords(s.gens[k], WordsAt(v, t), k))
    ensures T.MainLog(s, WordsAt(v, t) + rest, t, labels)
            == Moved(s.nxt, G.ApplySets(s.nxt, EventsAt(v, t)), t) + G.ShownAll(EventsAt(v, t))
  {
    hide EdgesReal, EventWords, SelfStarts, With, SamplesBelow, LabelsOf, T.CommitLog, T.Main, T.MainLog, ExecAll, ExecLogs, GenWords;
    var es, n := EventsAt(v, t), SamplesBelow(v.events, t);
    StepEvents(v, t);
    WordTimes(v, es, n, t);
    SelfStartTimes(v, t);
    ExecEvents(v, s, es, n, t, labels);
    RunBoth(s, EventWords(v, es, n), With(SelfStarts(v, v.clocks), t, WordTime), rest, t, labels);
  }

  lemma SelfStartTimes(v: Vec, t: int)
    requires ClocksOk(v)
    ensures forall w | w in With(SelfStarts(v, v.clocks), t, WordTime) :: Clocking(w) && w.t == t
  {
    SelfStartGen(v, v.clocks, t, 0, IDLE);
  }

  lemma StepEvents(v: Vec, t: int)
    requires Clean(v)
    ensures var es := EventsAt(v, t);
            && ClocksOk(v)
            && (forall e | e in es :: e.t == t && e in v.events)
            && (|es| > 1 ==> forall e | e in es :: e.Set?)
            && (|es| == 1 && es[0].Sample? ==> SamplesBelow(v.events, t) < |LabelsOf(v.events)|
                                               && LabelsOf(v.events)[SamplesBelow(v.events, t)] == es[0].name)
  {
    Alike(v, t);
    WithIn(v.events, t, Time);
    var es := EventsAt(v, t);
    if |es| == 1 && es[0].Sample? {
      assert es == [es[0]];
      LabelAt(v.events, t, es[0]);
    }
  }

  lemma {:induction false} WordTimes(v: Vec, es: seq<Event>, n: nat, t: int)
    requires forall e | e in es :: e.t == t && !e.End?
    ensures forall w | w in EventWords(v, es, n) :: w.t == t && w.op != END
    decreases es
  {
    if es != [] {
      assert es[0] in es;
      EventTimes(v, es[0], n);
      OpsOf(v, es[0], n);
      WordTimes(v, es[1..], if es[0].Sample? then n + 1 else n, t);
    }
  }

  lemma OpsOf(v: Vec, e: Event, n: nat)
    requires !e.End?
    ensures forall w | w in WordsOfEvent(v, e, n) :: w.op != END
  {
    if e.Set? { SetWordTimes(e.lsb, e.value, e.t); }
  }

  // ---- lines -----------------------------------------------------------------------------------------

  lemma {:induction false} LevelLater(es: seq<Event>, k: int, l: bool)
    ensures LevelAfter(Later(es), k, l) == LevelAfter(es, k, l)
    decreases es
  {
    if es != [] {
      LevelLater(es[1..], k, if es[0].Edge? && es[0].clk == k then es[0].rise else l);
      if Initial(es[0]) {
        assert Later(es) == Later(es[1..]);
      } else {
        assert Later(es)[1..] == Later(es[1..]) && Later(es)[0] == es[0];
      }
    }
  }

  lemma {:induction false} LevelOthers(es: seq<Event>, k: int, l: bool)
    requires forall e | e in es && e.Edge? :: e.clk != k
    ensures LevelAfter(es, k, l) == l
    decreases es
  {
    if es != [] {
      assert es[0] in es;
      LevelOthers(es[1..], k, l);
    }
  }

  lemma FreeIndex(v: Vec, c: Clock, k: int)
    requires ClocksOk(v) && c in v.clocks && c.index == k
    ensures DeclaredFree(v, k) <==> c.free
    ensures FindClock(v.clocks, k) == Some(c)
  {
    FoundIndex(v.clocks, k);
    forall d | d in v.clocks && d.index == k
      ensures d == c
    {
      var i :| 0 <= i < |v.clocks| && v.clocks[i] == c;
      var j :| 0 <= j < |v.clocks| && v.clocks[j] == d;
      assert i < j || j < i || i == j;
    }
  }

  /** The timeline of a stepped clock goes on with the level its events leave. */
  lemma TimelineLevel(v: Vec, c: Clock, t: int, l: bool)
    requires ClocksOk(v) && c in v.clocks && !c.free && Alternates(From(Timeline(v), t, Time), c.index, l)
    ensures Alternates(Later(EventsAt(v, t)), c.index, l)
    ensures Alternates(From(Timeline(v), t + 1, Time), c.index, LevelAfter(EventsAt(v, t), c.index, l))
  {
    var tl, k := Timeline(v), c.index;
    SortSorted(Later(v.events) + FreeEdges(v), Time);
    FromSplit(tl, t, Time);
    TimelineWith(v, t);
    FreeAtEdges(v, t);
    FreeIndex(v, c, k);
    hide Timeline, From, With, FreeAt;
    var a, f := Later(EventsAt(v, t)), FreeAt(v, t);
    assert TimelineAt(v, t) == a + f;
    AlternatesSplit(a + f, From(tl, t + 1, Time), k, l);
    AlternatesSplit(a, f, k, l);
    LevelAppend(a, f, k, l);
    LevelOthers(f, k, LevelAfter(a, k, l));
    LevelLater(EventsAt(v, t), k, l);
  }

  lemma NextLines(v: Vec, m: DutMap, step: seq<bool>, after: seq<bool>, t: int)
    requires Plainly(v, m) && ClocksOk(v) && Lines(v, step, t) && |after| == |step|
    requires forall k: nat | k < |step| :: after[k] == LevelAfter(EventsAt(v, t), k, step[k])
    ensures Lines(v, after, t + 1)
  {
    StepRules(v, m, t);
    hide Timeline, Plainly, From;
    forall c | c in v.clocks && 0 <= c.index < |after|
      ensures if c.free then !after[c.index] else Alternates(From(Timeline(v), t + 1, Time), c.index, after[c.index])
    {
      if c.free {
        FreeIndex(v, c, c.index);
        LevelOthers(EventsAt(v, t), c.index, false);
      } else {
        TimelineLevel(v, c, t, step[c.index]);
      }
    }
  }

  /** Every edge event changes its line, which no generator drives. */
  lemma RealEdges(v: Vec, m: DutMap, s: T.Tb, t: nat)
    requires Plainly(v, m) && ClocksOk(v) && |s.step| == |s.gens| == v.header.nclk && Lines(v, s.step, t)
    requires forall k: nat | k < |s.gens| && !DeclaredFree(v, k) :: s.gens[k] == IDLE
    ensures EdgesReal(s, EventsAt(v, t))
  {
    forall e | e in EventsAt(v, t) && e.Edge?
      ensures 0 <= e.clk < |s.step| && s.step[e.clk] != e.rise && !s.gens[e.clk].high
    {
      RealEdge(v, m, s, t, e);
    }
  }

  lemma RealEdge(v: Vec, m: DutMap, s: T.Tb, t: nat, e: Event)
    requires Plainly(v, m) && ClocksOk(v) && |s.step| == |s.gens| == v.header.nclk && Lines(v, s.step, t)
    requires (forall k: nat | k < |s.gens| && !DeclaredFree(v, k) :: s.gens[k] == IDLE) && e in EventsAt(v, t) && e.Edge?
    ensures 0 <= e.clk < |s.step| && s.step[e.clk] != e.rise && !s.gens[e.clk].high
  {
    StepRules(v, m, t);
    Periods(v);
    hide Timeline, Plainly, From, EventsAt;
    var c :| c in v.clocks && c.index == e.clk;
    FreeIndex(v, c, e.clk);
    TimelineLevel(v, c, t, s.step[e.clk]);
    OnlyEdge(v, m, t, e);
    assert Later([e]) == [e];
  }

  lemma OnlyEdge(v: Vec, m: DutMap, t: nat, e: Event)
    requires Plainly(v, m) && e in EventsAt(v, t) && !e.Set?
    ensures EventsAt(v, t) == [e]
  {
    PlainlyClean(v, m);
    Alike(v, t);
    hide Plainly, Clean;
    assert |EventsAt(v, t)| == 1;
  }

  // ---- the generators --------------------------------------------------------------------------------

  predicate HasEnd(v: Vec, t: int) { exists e :: e in EventsAt(v, t) && e.End? }

  /** A time step has END exactly when it is the last of a stimulus that ends itself. */
  lemma EndStep(v: Vec, t: int)
    requires Clean(v)
    ensures HasEnd(v, t) <==> Ended(v) && t == LastTime(v)
    ensures HasEnd(v, t) ==> |EventsAt(v, t)| == 1 && EventsAt(v, t)[0].End?
  {
    Alike(v, t);
    WithIn(v.events, t, Time);
    hide StopsOk, Cotimed;
    if HasEnd(v, t) {
      var e :| e in EventsAt(v, t) && e.End?;
      assert e in v.events && !e.Set?;
      var i :| 0 <= i < |v.events| && v.events[i] == e;
      assert i == |v.events| - 1;
    }
    if Ended(v) && t == LastTime(v) {
      var e := v.events[|v.events| - 1];
      assert Time(e) == t && e in v.events;
      assert e in EventsAt(v, t);
    }
  }

  /** Events that concern no clock `k` leave its generator alone. */
  lemma {:induction false} OtherEvents(v: Vec, es: seq<Event>, n: nat, k: nat, g: T.Gen)
    requires forall e | e in es :: !StartOf(e, k) && !StopOf(e, k)
    ensures GenWords(g, EventWords(v, es, n), k) == g
    decreases es
  {
    if es != [] {
      var e := es[0];
      assert e in es;
      OneOther(v, e, n, k, g);
      hide WordsOfEvent;
      OtherEvents(v, es[1..], if e.Sample? then n + 1 else n, k, g);
      GenWordsJoin(g, WordsOfEvent(v, e, n), EventWords(v, es[1..], if e.Sample? then n + 1 else n), k);
    }
  }

  lemma OneOther(v: Vec, e: Event, n: nat, k: nat, g: T.Gen)
    requires !StartOf(e, k) && !StopOf(e, k)
    ensures GenWords(g, WordsOfEvent(v, e, n), k) == g
  {
    if e.Set? { SetWordTimes(e.lsb, e.value, e.t); }
    if e.ClockStart? { FoundIndex(v.clocks, e.clk); }
    GenWordsNone(g, WordsOfEvent(v, e, n), k);
  }

  /** The generator of clock `k` after the words of a time step. */
  function GenAfter(v: Vec, k: nat, t: int, g: T.Gen): T.Gen {
    var f := FindClock(v.clocks, k);
    if f.Some? && f.value.free then Effect(g, f.value, ActionAt(v, f.value, t)) else g
  }

  /** What a time step without END does to each generator. */
  lemma StepGen(v: Vec, m: DutMap, t: nat, k: nat, g: T.Gen)
    requires Plainly(v, m) && !HasEnd(v, t)
    ensures GenWords(g, WordsAt(v, t), k) == GenAfter(v, k, t, g)
  {
    hide Clean, Plainly, EventWords, With, SelfStarts, GenWords, SamplesBelow, HasEnd, EventsAt, LastTime, Explicit, ActionIn;
    PlainlyClean(v, m);
    EndStep(v, t);
    StepEvents(v, t);
    FoundIndex(v.clocks, k);
    ClockIndices(v);
    var es, n := EventsAt(v, t), SamplesBelow(v.events, t);
    var f := FindClock(v.clocks, k);
    var a, b := EventWords(v, es, n), With(SelfStarts(v, v.clocks), t, WordTime);
    GenWordsJoin(g, a, b, k);
    SelfStartGen(v, v.clocks, t, k, GenWords(g, a, k));
    if f.Some? && f.value.free {
      EventGen(v, f.value, k, es, n, g);
    } else {
      NotFreeEvents(v, m, t, k);
      OtherEvents(v, es, n, k, g);
    }
  }

  lemma ClockIndices(v: Vec)
    requires ClocksOk(v)
    ensures forall i, j :: 0 <= i < j < |v.clocks| ==> v.clocks[i].index != v.clocks[j].index
  {}

  lemma NotFreeEvents(v: Vec, m: DutMap, t: nat, k: nat)
    requires Plainly(v, m) && ClocksOk(v) && !(FindClock(v.clocks, k).Some? && FindClock(v.clocks, k).value.free)
    ensures forall e | e in EventsAt(v, t) :: !StartOf(e, k) && !StopOf(e, k)
    ensures !DeclaredFree(v, k)
  {
    WithIn(v.events, t, Time);
    FoundIndex(v.clocks, k);
    if DeclaredFree(v, k) {
      var c :| c in v.clocks && c.index == k && c.free;
      FreeIndex(v, c, k);
    }
    hide WordsOf, Timeline;
    forall e | e in EventsAt(v, t)
      ensures !StartOf(e, k) && !StopOf(e, k)
    {
      assert EventOk(v, e);
    }
  }

  // ---- one time step of the testbench ----------------------------------------------------------------

  function Remaining(v: Vec, t: int): seq<Word> { From(Sort(WordsOf(v), WordTime), t, WordTime) }

  lemma RemainingSplit(v: Vec, m: DutMap, t: nat)
    requires Plainly(v, m) && t <= LastTime(v)
    ensures Remaining(v, t) == WordsAt(v, t) + Remaining(v, t + 1)
    ensures !HasEnd(v, t) ==> Remaining(v, t + 1) != []
    ensures forall w | w in Remaining(v, t + 1) :: w.t > t
    ensures forall w | w in WordsAt(v, t) :: w.t == t
  {
    PlainlyClean(v, m);
    SortSorted(WordsOf(v), WordTime);
    FromSplit(Sort(WordsOf(v), WordTime), t, WordTime);
    FromIn(Sort(WordsOf(v), WordTime), t + 1, WordTime);
    WithIn(Sort(WordsOf(v), WordTime), t, WordTime);
    SortedWordsAt(v, t);
    EndStep(v, t);
    hide Clean, Plainly, Sort, WordsOf, WordsAt;
    if !HasEnd(v, t) { EndAhead(v, t); }
  }

  lemma {:induction false} RestIs(a: seq<Word>, b: seq<Word>, t: int)
    requires (forall w | w in a :: w.t <= t) && (forall w | w in b :: w.t > t)
    ensures T.Rest(a + b, t) == b
    decreases a
  {
    if a == [] {
      assert a + b == b;
    } else {
      assert a[0] in a;
      assert (a + b)[1..] == a[1..] + b && (a + b)[0] == a[0];
      RestIs(a[1..], b, t);
    }
  }

  /** A testbench between time steps, apart from its generators. */
  ghost predicate Ready(v: Vec, s: T.Tb, t: nat)
    requires ClocksOk(v)
  {
    && |s.step| == |s.gens| == v.header.nclk && s.vec == s.nxt && !s.done && Lines(v, s.step, t)
    && (forall k: nat | k < |s.gens| && !DeclaredFree(v, k) :: s.gens[k] == IDLE)
  }

  /** The operation process has run the time step. */
  ghost predicate Stepped(v: Vec, s: T.Tb, r: T.Tb, t: nat)
    requires ClocksOk(v)
  {
    && r.nxt == r.vec == G.ApplySets(s.nxt, EventsAt(v, t)) && (r.done <==> HasEnd(v, t))
    && |r.step| == |r.gens| == |s.gens| && Lines(v, r.step, t + 1)
    && (forall k: nat | k < |s.gens| :: r.gens[k] == GenAfter(v, k, t, s.gens[k]))
  }

  function StepShows(v: Vec, bits: seq<Logic>, t: int): seq<T.Obs> {
    Moved(bits, G.ApplySets(bits, EventsAt(v, t)), t) + G.ShownAll(EventsAt(v, t))
  }

  /** The operation process at a time step up to the last event. */
  lemma MainTick(v: Vec, m: DutMap, s: T.Tb, t: nat)
    requires Plainly(v, m) && t <= LastTime(v) && ClocksOk(v) && Ready(v, s, t)
    ensures Stepped(v, s, T.Main(s, Remaining(v, t), t), t)
    ensures T.MainLog(s, Remaining(v, t), t, LabelsOf(v.events)) == StepShows(v, s.nxt, t)
  {
    hide Clean, Plainly, Remaining, LabelsOf, T.Main, T.MainLog, GenAfter, WordsAt, Lines, EdgesReal, HasEnd, LastTime, G.ApplySets, Moved, G.ShownAll;
    PlainlyClean(v, m);
    RemainingSplit(v, m, t);
    if HasEnd(v, t) {
      EndMain(v, m, s, t);
    } else {
      NoEndEvents(v, t);
      RealEdges(v, m, s, t);
      var ws, rest := WordsAt(v, t), Remaining(v, t + 1);
      assert rest[0] in rest;
      MainStep(v, s, t, rest, LabelsOf(v.events));
      var r := T.Main(s, ws + rest, t);
      NextLines(v, m, s.step, r.step, t);
      forall k: nat | k < |s.gens|
        ensures GenWords(s.gens[k], ws, k) == GenAfter(v, k, t, s.gens[k])
      {
        StepGen(v, m, t, k, s.gens[k]);
      }
    }
  }

  lemma NoEndEvents(v: Vec, t: int)
    requires !HasEnd(v, t)
    ensures forall e | e in EventsAt(v, t) :: !e.End?
  {}

  lemma EndRuns(s: T.Tb, ws: seq<Word>, t: int, labels: seq<string>)
    requires |s.step| == |s.gens| && s.vec == s.nxt && !s.done && ws != [] && ws[0].op == END && ws[0].t <= t
    ensures T.Main(s, ws, t) == s.(done := true)
    ensures T.MainLog(s, ws, t, labels) == []
  {
    var r := T.Exec(s, ws[0]);
    assert T.ExecLog(s, ws[0], t, labels) == [];
  }

  /** END comes first in its time step and stops the process. */
  lemma EndMain(v: Vec, m: DutMap, s: T.Tb, t: nat)
    requires Plainly(v, m) && t <= LastTime(v) && ClocksOk(v) && HasEnd(v, t) && Ready(v, s, t)
    ensures Stepped(v, s, T.Main(s, Remaining(v, t), t), t)
    ensures T.MainLog(s, Remaining(v, t), t, LabelsOf(v.events)) == StepShows(v, s.nxt, t)
  {
    hide Clean, Plainly, Remaining, LabelsOf, T.Main, T.MainLog, Lines, WordsAt, LastTime, HasEnd;
    PlainlyClean(v, m);
    RemainingSplit(v, m, t);
    EndFacts(v, m, t, s.nxt);
    EndRuns(s, Remaining(v, t), t, LabelsOf(v.events));
    NextLines(v, m, s.step, s.step, t);
  }

  lemma OnlyEnd(v: Vec, es: seq<Event>, n: nat, t: int, bits: seq<Logic>)
    requires |es| == 1 && es[0].End? && es[0].t == t
    ensures EventWords(v, es, n) == [Word(END, 0, 0, t)]
    ensures G.ApplySets(bits, es) == bits && G.ShownAll(es) == []
    ensures forall k, l :: LevelAfter(es, k, l) == l
    ensures forall c :: ActionIn(c, es) == Stay
  {
    assert es == [es[0]] && es[1..] == [];
    forall c
      ensures ActionIn(c, es) == Stay
    {
      assert ActionIn(c, es) == ActionIn(c, es[1..]);
    }
  }

  lemma EndFacts(v: Vec, m: DutMap, t: nat, bits: seq<Logic>)
    requires Plainly(v, m) && t <= LastTime(v) && HasEnd(v, t) && ClocksOk(v)
    ensures WordsAt(v, t) != [] && WordsAt(v, t)[0] == Word(END, 0, 0, t)
    ensures StepShows(v, bits, t) == [] && G.ApplySets(bits, EventsAt(v, t)) == bits
    ensures forall k, l :: LevelAfter(EventsAt(v, t), k, l) == l
    ensures forall k: nat, g: T.Gen :: GenAfter(v, k, t, g) == g
  {
    PlainlyClean(v, m);
    EndStep(v, t);
    StepEvents(v, t);
    hide Clean, Plainly, SelfStarts, HasEnd, EventsAt, SamplesBelow, G.ApplySets, G.ShownAll, ActionIn, EventWords, With;
    assert EventsAt(v, t)[0] in EventsAt(v, t);
    OnlyEnd(v, EventsAt(v, t), SamplesBelow(v.events, t), t, bits);
  }
}
