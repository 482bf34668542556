/** Around the theorem of `SameMeaning`: what comes after the last event, where the start-up GSR ends,
    co-timed sets in any order, and a stimulus that passes every check and still is not orderly. */
module SameMeaningFacts {
  import opened Wrap
  import opened Sorting
  import opened Stimulus
  import opened Validation
  import opened Words
  import opened Compile
  import opened Generators
  import opened Schedule
  import opened Timesteps
  import opened Execution
  import opened StepExecution
  import opened SameMeaning
  import T = Testbench
  import G = Golden

  // ---- co-timed sets ---------------------------------------------------------------------------------

  /** Bit `i` after a set: the least significant bit of the value goes to `lsb`. */
  lemma {:induction false} PutBitsAt(bits: seq<Logic>, lsb: int, value: seq<Logic>, i: nat)
    requires i < |bits|
    ensures G.PutBits(bits, lsb, value)[i] == if lsb <= i < lsb + |value| then value[|value| - 1 - (i - lsb)] else bits[i]
    decreases |value|
  {
    if value != [] {
      var next := if 0 <= lsb < |bits| then bits[lsb := value[|value| - 1]] else bits;
      PutBitsAt(next, lsb + 1, value[..|value| - 1], i);
    }
  }

  predicate SetFits(e: Event) { e.Set? && |e.value| == e.msb - e.lsb + 1 }

  lemma TwoSets(bits: seq<Logic>, a: Event, b: Event)
    requires SetFits(a) && SetFits(b) && !Overlap(a, b)
    ensures G.PutBits(G.PutBits(bits, a.lsb, a.value), b.lsb, b.value) == G.PutBits(G.PutBits(bits, b.lsb, b.value), a.lsb, a.value)
  {
    var x, y := G.PutBits(bits, a.lsb, a.value), G.PutBits(bits, b.lsb, b.value);
    var l, r := G.PutBits(x, b.lsb, b.value), G.PutBits(y, a.lsb, a.value);
    forall i: nat | i < |bits|
      ensures l[i] == r[i]
    {
      PutBitsAt(bits, a.lsb, a.value, i);
      PutBitsAt(bits, b.lsb, b.value, i);
      PutBitsAt(x, b.lsb, b.value, i);
      PutBitsAt(y, a.lsb, a.value, i);
    }
  }

  /** Neighbouring sets of one time may trade places: neither the golden input values nor those the
      testbench commits depend on the file order of co-timed sets. */
  lemma {:induction false} SetsCommute(bits: seq<Logic>, x: seq<Event>, a: Event, b: Event, y: seq<Event>)
    requires SetFits(a) && SetFits(b) && !Overlap(a, b)
    ensures G.ApplySets(bits, x + [a, b] + y) == G.ApplySets(bits, x + [b, a] + y)
    decreases x
  {
    if x == [] {
      var l, r := [] + [a, b] + y, [] + [b, a] + y;
      assert l[0] == a && l[1..] == [b] + y && ([b] + y)[1..] == y;
      assert r[0] == b && r[1..] == [a] + y && ([a] + y)[1..] == y;
      assert G.ApplySets(bits, l) == G.ApplySets(G.PutBits(G.PutBits(bits, a.lsb, a.value), b.lsb, b.value), y);
      assert G.ApplySets(bits, r) == G.ApplySets(G.PutBits(G.PutBits(bits, b.lsb, b.value), a.lsb, a.value), y);
      TwoSets(bits, a, b);
    } else {
      assert (x + [a, b] + y)[1..] == x[1..] + [a, b] + y;
      assert (x + [b, a] + y)[1..] == x[1..] + [b, a] + y;
      SetsCommute(if x[0].Set? then G.PutBits(bits, x[0].lsb, x[0].value) else bits, x[1..], a, b, y);
    }
  }

  // ---- after the last event --------------------------------------------------------------------------

  predicate Trailing(w: Word) { w.op == END || Clocking(w) }

  /** END is still to come, or done; and no set is pending. */
  predicate Settled(tb: T.Tb, ws: seq<Word>) {
    |tb.step| == |tb.gens| && tb.vec == tb.nxt && (tb.done || exists w :: w in ws && w.op == END)
  }

  lemma {:induction false} TrailingMain(tb: T.Tb, ws: seq<Word>, t: int, labels: seq<string>)
    requires Settled(tb, ws) && forall w | w in ws :: Trailing(w)
    ensures T.MainLog(tb, ws, t, labels) == []
    ensures Settled(T.Main(tb, ws, t), T.Rest(ws, t)) && forall w | w in T.Rest(ws, t) :: Trailing(w)
    decreases ws
  {
    if !tb.done && ws != [] && ws[0].t <= t {
      assert ws[0] in ws;
      assert ws == [ws[0]] + ws[1..];
      TrailingMain(T.Exec(tb, ws[0]), ws[1..], t, labels);
    } else if tb.done {
      RestTrails(ws, t);
    }
  }

  lemma {:induction false} RestTrails(ws: seq<Word>, t: int)
    ensures forall w | w in T.Rest(ws, t) :: w in ws
    decreases ws
  {
    if ws != [] && ws[0].t <= t { RestTrails(ws[1..], t); }
  }

  lemma {:induction false} FlipsClocked(tb: T.Tb, k: nat, t: int, who: set<int>)
    requires |tb.step| == |tb.gens|
    ensures forall o | o in T.Flips(tb, k, t, who) :: o.Clocked?
    decreases |tb.gens| - k
  {
    if k < |tb.gens| { FlipsClocked(tb, k + 1, t, who); }
  }

  /** Once only END and clock words are left, the testbench shows nothing but clock edges. */
  lemma {:induction false} TrailingHistory(tb: T.Tb, ws: seq<Word>, t: int, until: int, order: T.Order, labels: seq<string>)
    requires Settled(tb, ws) && forall w | w in ws :: Trailing(w)
    ensures forall o | o in T.History(tb, ws, t, until, order, labels) :: o.Clocked?
    decreases until + 1 - t
  {
    if t <= until {
      hide T.Main, T.MainLog, T.Rest, T.Flips, T.ActSome;
      var s := Before(tb, t, order);
      TrailingMain(s, ws, t, labels);
      FlipsClocked(tb, 0, t, order(t));
      FlipsClocked(T.Main(s, ws, t), 0, t, T.All(tb));
      TrailingHistory(T.Tick(tb, ws, t, order), T.Rest(ws, t), t + 1, until, order, labels);
    }
  }

  /** A time step settles the testbench as long as END is still to come. */
  lemma {:induction false} MainSettles(tb: T.Tb, ws: seq<Word>, t: int)
    requires |tb.step| == |tb.gens| && (tb.done ==> tb.vec == tb.nxt) && (tb.done || exists w :: w in ws && w.op == END)
    ensures Settled(T.Main(tb, ws, t), T.Rest(ws, t))
    decreases ws
  {
    if !tb.done && ws[0].t <= t {
      assert ws == [ws[0]] + ws[1..];
      MainSettles(T.Exec(tb, ws[0]), ws[1..], t);
    }
  }

  /** The testbench after the time steps through `last`. */
  function After(v: Vec, tb: T.Tb, t: nat, last: int, order: T.Order): (r: T.Tb)
    requires |tb.step| == |tb.gens|
    ensures |r.step| == |r.gens| == |tb.gens|
    decreases last + 1 - t
  {
    if t > last then tb else After(v, T.Tick(tb, Remaining(v, t), t, order), t + 1, last, order)
  }

  lemma {:induction false} HistorySplit(v: Vec, m: DutMap, tb: T.Tb, t: nat, until: int, order: T.Order, labels: seq<string>)
    requires Plainly(v, m) && t <= LastTime(v) + 1 && until >= LastTime(v) && Settled(tb, Remaining(v, t))
    ensures var r := After(v, tb, t, LastTime(v), order);
            && Settled(r, Remaining(v, LastTime(v) + 1))
            && T.History(tb, Remaining(v, t), t, until, order, labels)
               == T.History(tb, Remaining(v, t), t, LastTime(v), order, labels)
                  + T.History(r, Remaining(v, LastTime(v) + 1), LastTime(v) + 1, until, order, labels)
    decreases LastTime(v) + 1 - t
  {
    var last := LastTime(v);
    hide Plainly, Remaining, T.TickLog, T.Main, T.Rest, T.ActSome, LastTime;
    if t <= last {
      var next := T.Tick(tb, Remaining(v, t), t, order);
      RestRemains(v, m, t);
      MainSettles(Before(tb, t, order), Remaining(v, t), t);
      HistorySplit(v, m, next, t + 1, until, order, labels);
      hide T.Tick;
      var a := T.TickLog(tb, Remaining(v, t), t, order, labels);
      var b, c := T.History(next, Remaining(v, t + 1), t + 1, last, order, labels),
                  T.History(After(v, next, t + 1, last, order), Remaining(v, last + 1), last + 1, until, order, labels);
      assert a + (b + c) == a + b + c;
    }
  }

  lemma RestRemains(v: Vec, m: DutMap, t: nat)
    requires Plainly(v, m) && t <= LastTime(v)
    ensures T.Rest(Remaining(v, t), t) == Remaining(v, t + 1)
  {
    RemainingSplit(v, m, t);
    hide Plainly, Remaining, WordsAt;
    RestIs(WordsAt(v, t), Remaining(v, t + 1), t);
  }

  /** Only END and the words of clocks that start by themselves come after the last event. */
  lemma WordsAfterLast(v: Vec, m: DutMap)
    requires Plainly(v, m)
    ensures forall w | w in Remaining(v, LastTime(v) + 1) :: Trailing(w)
  {
    PlainlyClean(v, m);
    FromIn(Sort(WordsOf(v), WordTime), LastTime(v) + 1, WordTime);
    ImplicitIs(v, v.clocks);
    hide Clean, Plainly, LastTime, Sort, EventWords, ImplicitWords, FreeRuns;
    assert FreeRuns(v) == RunsOf(v, v.clocks) by { FreeRunsAre(v); }
    forall w | w in Remaining(v, LastTime(v) + 1)
      ensures Trailing(w)
    {
      SortIn(WordsOf(v), w, WordTime);
      if w in EventWords(v, v.events, 0) {
        EventWordLast(v, v.events, 0, w);
      } else if w in SelfStarts(v, v.clocks) {
        SelfStartsClocking(v, v.clocks);
      } else {
        assert w in EndWords(v);
      }
    }
  }

  lemma {:induction false} EventWordLast(v: Vec, es: seq<Event>, n: nat, w: Word)
    requires Clean(v) && (forall e | e in es :: e in v.events) && w in EventWords(v, es, n)
    ensures w.t <= LastTime(v)
    decreases es
  {
    if es != [] {
      EventTimes(v, es[0], n);
      assert es[0] in es;
      EventByLast(v, es[0]);
      hide Clean, WordsOfEvent, LastTime;
      if w !in WordsOfEvent(v, es[0], n) { EventWordLast(v, es[1..], if es[0].Sample? then n + 1 else n, w); }
    }
  }

  lemma {:induction false} SelfStartsClocking(v: Vec, cs: seq<Clock>)
    ensures forall w | w in SelfStarts(v, cs) :: Clocking(w)
  {
    if cs != [] { SelfStartsClocking(v, cs[1..]); }
  }

  lemma OnlyClocksLater(v: Vec, m: DutMap, tb: T.Tb, until: int, order: T.Order, labels: seq<string>)
    requires Plainly(v, m) && until >= LastTime(v) && Settled(tb, Remaining(v, 0)) && |tb.step| == |tb.gens| && LastTime(v) >= 0
    ensures var all, compared := T.History(tb, Remaining(v, 0), 0, until, order, labels),
                                 T.History(tb, Remaining(v, 0), 0, LastTime(v), order, labels);
            compared <= all && forall o | o in all[|compared|..] :: o.Clocked?
  {
    hide Clean, Plainly, Remaining, LastTime, T.History, After, Trailing, Settled;
    WordsAfterLast(v, m);
    HistorySplit(v, m, tb, 0, until, order, labels);
    var r := After(v, tb, 0, LastTime(v), order);
    TrailingHistory(r, Remaining(v, LastTime(v) + 1), LastTime(v) + 1, until, order, labels);
    var a, b := T.History(tb, Remaining(v, 0), 0, LastTime(v), order, labels),
                T.History(r, Remaining(v, LastTime(v) + 1), LastTime(v) + 1, until, order, labels);
    assert (a + b)[|a|..] == b && a <= a + b;
  }

  /** However long the testbench runs on after the last event (to its END, and beyond), it shows nothing
      more but edges of free-running clocks: no input change, no glbl write and no sample. */
  lemma OnlyClocksAfterLast(v: Vec, m: DutMap, until: int, order: T.Order)
    requires Plainly(v, m) && v.header.nin >= 0 && v.header.nclk >= 0 && until >= LastTime(v)
    ensures var image, labels := Sort(Image(WordsOf(v)), ImageTime), LabelsOf(v.events);
            var nin, nclk, last := v.header.nin, v.header.nclk, LastTime(v);
            var all, compared := T.Simulated(image, labels, nin, nclk, until, order), T.Simulated(image, labels, nin, nclk, last, order);
            compared <= all && forall o | o in all[|compared|..] :: o.Clocked?
  {
    hide Clean, Plainly, Remaining, WordsOf, Sort, T.History, Decoded, Image, LabelsOf;
    PlainlyClean(v, m);
    NotNegative(v);
    AllRemaining(v, m);
    EndInImage(v, m);
    OnlyClocksLater(v, m, T.PowerUp(v.header.nin, v.header.nclk), until, order, LabelsOf(v.events));
  }

  lemma NotNegative(v: Vec)
    requires Clean(v)
    ensures LastTime(v) >= 0
  {}

  lemma EndInImage(v: Vec, m: DutMap)
    requires Plainly(v, m)
    ensures exists w :: w in Remaining(v, 0) && w.op == END
  {
    PlainlyClean(v, m);
    hide Plainly, Clean;
    EndWord(v);
    hide EventWords, ImplicitWords, EndWords, FreeRuns;
    var w :| w in WordsOf(v) && w.op == END && w.t >= 0;
    SortSorted(WordsOf(v), WordTime);
    FromIn(Sort(WordsOf(v), WordTime), 0, WordTime);
    assert w in multiset(WordsOf(v)) && w in Sort(WordsOf(v), WordTime);
    assert w in Remaining(v, 0);
  }

  lemma EndWord(v: Vec)
    requires Clean(v) && v.header.settle >= 0
    ensures exists w :: w in WordsOf(v) && w.op == END && w.t >= 0
  {
    if Ended(v) {
      LastEventWord(v, v.events, 0);
      var w := Word(END, 0, 0, v.events[|v.events| - 1].t);
      assert v.events[|v.events| - 1] in v.events;
      assert w in WordsOf(v) && w.op == END && w.t >= 0;
    } else {
      var w := EndWords(v)[0];
      assert w in EndWords(v);
      assert v.events != [] ==> v.events[|v.events| - 1] in v.events;
      assert w in WordsOf(v) && w.op == END && w.t >= 0;
    }
  }

  // ---- where the start-up GSR ends -------------------------------------------------------------------

  predicate AllBefore(log: seq<T.Obs>, t: int) { forall o | o in log :: !o.Release? && o.t < t }

  predicate AllOnAfter(log: seq<T.Obs>, t: int) { forall o | o in log :: !o.Release? && o.t >= t }

  lemma {:induction false} ShownTimes(es: seq<Event>, t: int)
    requires forall e | e in es :: e.t == t
    ensures forall o | o in G.ShownAll(es) :: !o.Release? && o.t == t
    decreases es
  {
    if es != [] {
      assert es[0] in es;
      ShownTimes(es[1..], t);
    }
  }

  lemma {:induction false} AfterRelease(es: seq<Event>, bits: seq<Logic>)
    requires SortedBy(es, Time) && forall e | e in es :: e.t >= ROC_WIDTH
    ensures forall o | o in G.Replayed(es, bits, true) :: !o.Release? && o.t >= ROC_WIDTH
    decreases |es|
  {
    if es != [] {
      var n := G.GroupLen(es);
      GroupTimes(es);
      StepTimes(es[..n], es[0].t);
      assert es[0] in es;
      forall e | e in es[n..]
        ensures e.t >= ROC_WIDTH
      {
        assert e in es;
      }
      AfterRelease(es[n..], G.ApplySets(bits, es[..n]));
      hide G.GroupLen, G.ApplySets, G.ShownAll;
    }
  }

  lemma GroupTimes(es: seq<Event>)
    requires es != []
    ensures forall e | e in es[..G.GroupLen(es)] :: e.t == es[0].t
  {
    SameTimes(es[1..], es[0].t);
    var n := G.SameTime(es[1..], es[0].t);
    forall e | e in es[..n + 1]
      ensures e.t == es[0].t
    {
      var i :| 0 <= i < n + 1 && es[..n + 1][i] == e;
      if i > 0 { assert es[1..][..n][i - 1] == e; }
    }
  }

  lemma {:induction false} SameTimes(es: seq<Event>, t: int)
    ensures forall e | e in es[..G.SameTime(es, t)] :: e.t == t
    decreases es
  {
    if es != [] && es[0].t == t {
      SameTimes(es[1..], t);
      var n := G.SameTime(es[1..], t);
      assert es[..n + 1] == [es[0]] + es[1..][..n];
    }
  }

  predicate SomeFrom(es: seq<Event>, t: int) { exists e :: e in es && e.t >= t }

  lemma GroupSplit(es: seq<Event>)
    requires SortedBy(es, Time) && es != []
    ensures var n, t := G.GroupLen(es), es[0].t;
            && SortedBy(es[n..], Time) && (forall e | e in es[..n] :: e.t == t)
            && (t >= ROC_WIDTH ==> SomeFrom(es, ROC_WIDTH) && forall e | e in es[n..] :: e.t >= ROC_WIDTH)
            && (t < ROC_WIDTH ==> (SomeFrom(es[n..], ROC_WIDTH) <==> SomeFrom(es, ROC_WIDTH)))
  {
    GroupTimes(es);
    hide G.GroupLen;
    SplitParts(es, G.GroupLen(es));
  }

  lemma SplitParts(es: seq<Event>, n: nat)
    requires SortedBy(es, Time) && 0 < n <= |es| && forall e | e in es[..n] :: e.t == es[0].t
    ensures SortedBy(es[n..], Time)
    ensures es[0].t >= ROC_WIDTH ==> SomeFrom(es, ROC_WIDTH) && forall e | e in es[n..] :: e.t >= ROC_WIDTH
    ensures es[0].t < ROC_WIDTH ==> (SomeFrom(es[n..], ROC_WIDTH) <==> SomeFrom(es, ROC_WIDTH))
  {
    var head, rest := es[..n], es[n..];
    assert es == head + rest;
    assert es[0] in es;
    forall e | e in rest
      ensures e.t >= es[0].t
    {
      var i :| 0 <= i < |rest| && rest[i] == e;
      assert es[n + i] == e && Time(es[0]) <= Time(es[n + i]);
    }
    assert forall e :: e in es <==> e in head || e in rest;
  }

  lemma StepBefore(es: seq<Event>, t: int, bits: seq<Logic>)
    requires forall e | e in es :: e.t == t
    ensures if t < ROC_WIDTH then AllBefore(G.Step(es, t, bits), ROC_WIDTH) else AllOnAfter(G.Step(es, t, bits), ROC_WIDTH)
  {
    ShownTimes(es, t);
  }

  /** Golden replay ends the start-up GSR once: after everything before `ROC_WIDTH` and before
      everything from then on, if there is anything from then on. */
  lemma {:induction false} ReleaseOnce(es: seq<Event>, bits: seq<Logic>) returns (a: seq<T.Obs>, b: seq<T.Obs>)
    requires SortedBy(es, Time)
    ensures G.Replayed(es, bits, false) == a + (if SomeFrom(es, ROC_WIDTH) then [T.Release] else []) + b
    ensures AllBefore(a, ROC_WIDTH) && AllOnAfter(b, ROC_WIDTH)
    decreases |es|
  {
    hide G.Step, G.GroupLen, G.ApplySets, SortedBy;
    if es == [] {
      a, b := [], [];
    } else {
      GroupSplit(es);
      var n, t := G.GroupLen(es), es[0].t;
      var step, rest, after := G.Step(es[..n], t, bits), es[n..], G.ApplySets(bits, es[..n]);
      StepBefore(es[..n], t, bits);
      hide SomeFrom;
      if t >= ROC_WIDTH {
        AfterRelease(rest, after);
        a, b := [], step + G.Replayed(rest, after, true);
        assert [T.Release] + step + G.Replayed(rest, after, true) == [] + [T.Release] + b;
      } else {
        var x;
        x, b := ReleaseOnce(rest, after);
        a := step + x;
        var r := if SomeFrom(es, ROC_WIDTH) then [T.Release] else [];
        assert [] + step + (x + r + b) == step + x + r + b;
      }
    }
  }

  // ---- a stimulus that is not orderly ----------------------------------------------------------------

  const OneClock: DutMap := DutMap("TOY", "c", map[], 1, 0, 0, [Bit(Clk, 0, "C", 0, ClockIn, Plain)], None)

  const CLOCK: Clock := Clock(0, 1_000_000, 0, 50, true)

  /** A clock started again while it runs. */
  const Restarted: Vec :=
    Vec(Header("TOY", "c", 0, 0, 1, 120_000, 0, None, false, None, map[]), [CLOCK],
        [ClockStart(200_000, false, 0), ClockStart(300_000, false, 0), Sample(350_000, false, "S0")])

  lemma RestartedEdges()
    ensures ClocksOk(Restarted) && Explicit(Restarted, 0)
    ensures FreeRuns(Restarted) == [Span(CLOCK, 300_000, None)]
    ensures FreeEdges(Restarted) == [Edge(300_000, false, 0, true)]
  {
    var v, es := Restarted, Restarted.events;
    assert v.clocks[0] == CLOCK && v.clocks[1..] == [];
    assert es[0] in es && StartOf(es[0], 0);
    assert es[1..][0] == es[1] && es[2..][0] == es[2] && es[1..][1..] == es[2..] && es[2..][1..] == [];
    assert RunsFrom(CLOCK, es[2..], Some(300_000)) == [Span(CLOCK, 300_000, None)];
    assert RunsFrom(CLOCK, es[1..], Some(200_000)) == [Span(CLOCK, 300_000, None)];
    assert RunsFrom(CLOCK, es, None) == [Span(CLOCK, 300_000, None)];
    assert RunsOf(v, v.clocks) == ClockRuns(v, CLOCK) + RunsOf(v, []);
    var runs := [Span(CLOCK, 300_000, None)];
    assert runs[1..] == [];
    assert EdgesFrom(CLOCK, 1_300_000, 350_000) == [];
    assert EdgesFrom(CLOCK, 300_000, 350_000) == [Edge(300_000, false, 0, true)];
    assert EdgesOf(v, runs) == [Edge(300_000, false, 0, true)];
    var edges := [Edge(300_000, false, 0, true)];
    assert edges[1..] == [];
    assert Sort(edges, Time) == Insert(edges[0], [], Time);
  }

  lemma RestartedLater()
    ensures Later(Restarted.events) == Restarted.events
  {
    var es := Restarted.events;
    assert es[1..][0] == es[1] && es[1..][1..] == es[2..] && es[2..][0] == es[2] && es[2..][1..] == [];
    assert Later(es[2..]) == [es[2]] + Later([]) && Later(es[1..]) == [es[1]] + Later(es[2..]);
    assert Later(es) == [es[0]] + Later(es[1..]);
  }

  lemma SortFour(a: Event, b: Event, s: Event, e: Event)
    requires a.t < b.t == e.t < s.t
    ensures Sort([a, b, s] + [e], Time) == [a, b, e, s]
  {
    var all := [a, b, s] + [e];
    assert all[1..] == [b, s, e] && all[1..][1..] == [s, e] && [s, e][1..] == [e] && [e][1..] == [];
    assert Sort([e], Time) == [e];
    assert Insert(s, [e], Time) == [e] + Insert(s, [], Time);
    assert Sort([s, e], Time) == [e, s];
    assert Sort([b, s, e], Time) == Insert(b, [e, s], Time) == [b, e, s];
    assert Sort(all, Time) == Insert(a, [b, e, s], Time);
  }

  lemma RestartedTimeline()
    ensures ClocksOk(Restarted)
    ensures Timeline(Restarted) == [Restarted.events[0], Restarted.events[1], Edge(300_000, false, 0, true), Restarted.events[2]]
  {
    RestartedEdges();
    RestartedLater();
    hide FreeEdges, Later, Sort;
    var es := Restarted.events;
    assert es == [es[0], es[1], es[2]];
    SortFour(es[0], es[1], es[2], Edge(300_000, false, 0, true));
  }

  /** It passes every check and is compiled, and yet its clock is not orderly: golden replay forgets the
      first run, which the testbench generates. */
  lemma RestartPasses()
    ensures Plainly(Restarted, OneClock) && !Orderly(Restarted)
  {
    RestartedEdges();
    RestartedValid();
    RestartedFits();
    RestartNext();
    hide WordsOf, ErrorFree, FreeEdges, FreeRuns, EventsOn, NextIsStart, Unmarked, ClockWords, Numbered;
    var v, es := Restarted, Restarted.events;
    assert es[0] in es;
    assert v.clocks[0] == CLOCK && CLOCK in v.clocks;
    assert !ClockOrderly(v, CLOCK);
  }

  lemma RestartNext()
    ensures NextIsStart(CLOCK, EventsOn(Restarted, 200_001))
  {
    var es := Restarted.events;
    assert es[1..][0] == es[1] && es[1..][1..] == es[2..] && es[2..][0] == es[2] && es[2..][1..] == [];
    assert From(es[2..], 200_001, Time) == [es[2]] + From([], 200_001, Time);
    assert From(es[1..], 200_001, Time) == [es[1]] + From(es[2..], 200_001, Time);
    assert From(es, 200_001, Time) == [] + From(es[1..], 200_001, Time);
    assert EventsOn(Restarted, 200_001)[0] == es[1];
  }

  /** The rules of the timeline, for a change that has nothing beside it. */
  lemma QuietTimeline(tl: seq<Event>, m: DutMap, a: Event, b: Event, e: Event, s: Event)
    requires Numbered(m) && tl == [a, b, e, s] && a.ClockStart? && b.ClockStart? && e.Edge? && s.Sample?
    requires a.t > ROC_WIDTH + MIN_SEP && b.t > a.t && e.t == b.t && s.t >= e.t + MIN_SEP
    ensures ClearOfRelease(tl, MIN_SEP) && SamplesApart(tl) && Alone(tl, m) && NoMixedSets(tl, m) && AsyncApart(tl, m, MIN_SEP)
  {
    hide Numbered, Lonely, AllMarked;
    assert forall x | x in tl :: x == a || x == b || x == e || x == s;
  }

  lemma RestartedClocks()
    ensures ClocksOk(Restarted) && StopsOk(Restarted) && Numbered(OneClock) && NoClockBits(Restarted.events, OneClock)
    ensures EdgesOk(Restarted, Timeline(Restarted))
  {
    RestartedTimeline();
    RestartedEdges();
    OneClockBits();
    RunClocks(Restarted, Restarted.clocks);
    hide Timeline, FreeEdges, FreeRuns, Numbered, ClocksOk;
    OneEdgeOk(Restarted, Timeline(Restarted), Restarted.events[0], Restarted.events[1], Restarted.events[2]);
  }

  lemma OneEdgeOk(v: Vec, tl: seq<Event>, a: Event, b: Event, s: Event)
    requires ClocksOk(v) && v.clocks == [CLOCK] && FreeEdges(v) == [Edge(300_000, false, 0, true)]
    requires tl == [a, b, Edge(300_000, false, 0, true), s] && !a.Edge? && !b.Edge? && !s.Edge?
    ensures EdgesOk(v, tl)
  {
    hide FreeEdges, ClocksOk;
    assert v.clocks[0].free && forall c | c in v.clocks :: c == v.clocks[0];
    assert forall x | x in tl && x.Edge? :: x == Edge(300_000, false, 0, true);
  }

  lemma RestartedValid()
    ensures Numbered(OneClock) && ErrorFree(Restarted, OneClock) && Unmarked(Restarted)
  {
    hide Timeline, FreeEdges, FreeRuns, StructureOk, Numbered, SamplesApart, Alone, NoMixedSets, AsyncApart, ClearOfRelease, StopsOk,
         EdgesOk, NoClockBits, ClocksOk;
    RestartedTimeline();
    RestartedClocks();
    RestartedStructure();
    var es := Restarted.events;
    QuietTimeline(Timeline(Restarted), OneClock, es[0], es[1], Edge(300_000, false, 0, true), es[2]);
    assert es[2] in es && es[2].Sample?;
  }

  lemma OneClockBits()
    ensures Numbered(OneClock)
  {
    var bits := OneClock.bits;
    assert bits[1..] == [];
    assert Of(bits, Clk) == bits && Of(bits, In) == [] && Of(bits, Out) == [];
  }

  lemma ThreeTimes(es: seq<Event>)
    requires |es| == 3 && es[0].t < es[1].t < es[2].t && es[0].ClockStart? && es[1].ClockStart? && es[2].Sample?
    requires !es[0].sim && !es[1].sim && !es[2].sim
    ensures LabelsUnique(es) && Ordered(es) && Cotimed(es)
  {
    hide AllSetsAt, Overlap;
  }

  lemma RestartedStructure()
    ensures StructureOk(Restarted)
  {
    var v, es := Restarted, Restarted.events;
    ThreeTimes(es);
    hide LabelsUnique, Ordered, Cotimed;
    assert v.clocks[0] == CLOCK && CLOCK in v.clocks;
    assert Declared(v, 0) && DeclaredFree(v, 0);
    hide Declared, DeclaredFree;
    assert EventOk(v, es[0]) && EventOk(v, es[1]) && EventOk(v, es[2]);
    hide EventOk;
    assert forall e | e in es :: e == es[0] || e == es[1] || e == es[2];
  }

  lemma RestartedWords()
    ensures WordsOf(Restarted) == ClockWords(CLOCK, 200_000) + ClockWords(CLOCK, 300_000)
                                  + [Word(SAMPLE, 0, 0, 350_000), Word(END, 0, 0, 351_000)]
  {
    RestartedEdges();
    var v, es := Restarted, Restarted.events;
    assert v.clocks[0] == CLOCK;
    assert FindClock(v.clocks, 0) == Some(CLOCK);
    assert es[1..][0] == es[1] && es[1..][1..] == es[2..] && es[2..][0] == es[2] && es[2..][1..] == [];
    var runs := [Span(CLOCK, 300_000, None)];
    assert runs[1..] == [];
    hide FreeRuns, ClockWords;
    assert ImplicitWords(v, runs) == [];
    assert EventWords(v, es[2..], 0) == WordsOfEvent(v, es[2], 0) + [];
    assert EventWords(v, es[1..], 0) == WordsOfEvent(v, es[1], 0) + EventWords(v, es[2..], 0);
    assert EventWords(v, es, 0) == WordsOfEvent(v, es[0], 0) + EventWords(v, es[1..], 0);
  }

  lemma RestartedFits()
    ensures forall w | w in WordsOf(Restarted) :: Fits(w)
    ensures forall c, w | c in Restarted.clocks && c.free && w in ClockWords(c, 0) :: Fits(w)
    ensures forall c | c in Restarted.clocks && c.free :: 0 < High(c) < c.period
  {
    RestartedWords();
    assert forall c | c in Restarted.clocks :: c == CLOCK;
  }
}
