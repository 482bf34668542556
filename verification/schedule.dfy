/** The words of one time step: what `compile_vec` and the stable sort leave at each time. */
module Schedule {
  import opened Wrap
  import opened Sorting
  import opened Stimulus
  import opened Validation
  import opened Words
  import opened Compile
  import opened Generators

  function SamplesBelow(es: seq<Event>, t: int): nat {
    if es == [] then 0 else (if es[0].Sample? && es[0].t < t then 1 else 0) + SamplesBelow(es[1..], t)
  }

  lemma {:induction false} SetWordTimes(lsb: int, value: seq<Logic>, t: int)
    ensures forall w | w in SetWords(lsb, value, t) :: w.t == t && w.op == SET
    decreases |value|
  {
    if value != [] { SetWordTimes(lsb + 1, value[..|value| - 1], t); }
  }

  lemma EventTimes(v: Vec, e: Event, n: nat)
    ensures forall w | w in WordsOfEvent(v, e, n) :: w.t == e.t
  {
    if e.Set? { SetWordTimes(e.lsb, e.value, e.t); }
  }

  lemma NoneBelow(es: seq<Event>, t: int)
    requires forall e | e in es :: e.t >= t
    ensures SamplesBelow(es, t) == 0
  {
    if es != [] {
      assert es[0] in es;
      NoneBelow(es[1..], t);
    }
  }

  lemma HeadEventWords(v: Vec, e: Event, es: seq<Event>, n: nat)
    ensures EventWords(v, [e] + es, n) == WordsOfEvent(v, e, n) + EventWords(v, es, if e.Sample? then n + 1 else n)
  {
    assert ([e] + es)[1..] == es;
  }

  lemma LaterOnes(es: seq<Event>, t: int)
    requires SortedBy(es, Time) && es != [] && es[0].t >= t
    ensures SamplesBelow(es[1..], t) == 0
    ensures es[0].t > t ==> With(es[1..], t, Time) == []
  {
    SortedHead(es, Time);
    forall x | x in es[1..]
      ensures x.t >= t && (es[0].t > t ==> Time(x) != t)
    {
      assert Time(x) >= Time(es[0]);
    }
    NoneBelow(es[1..], t);
    if es[0].t > t { WithNone(es[1..], t, Time); }
  }

  lemma HeadSamples(es: seq<Event>, t: int)
    requires es != []
    ensures SamplesBelow(es, t) == (if es[0].Sample? && es[0].t < t then 1 else 0) + SamplesBelow(es[1..], t)
  {}

  ghost predicate WordsOfTime(v: Vec, es: seq<Event>, n: nat, t: int) {
    With(EventWords(v, es, n), t, WordTime) == EventWords(v, With(es, t, Time), n + SamplesBelow(es, t))
  }

  lemma NoWordsOfTime(v: Vec, n: nat, t: int)
    ensures WordsOfTime(v, [], n, t) && EventWords(v, [], n) == []
  {
    assert With<Event>([], t, Time) == [];
  }

  lemma WordsHere(v: Vec, e: Event, rest: seq<Event>, n: nat, t: int)
    requires SortedBy([e] + rest, Time) && e.t == t && WordsOfTime(v, rest, if e.Sample? then n + 1 else n, t)
    ensures WordsOfTime(v, [e] + rest, n, t)
  {
    hide WordsOfEvent, SortedBy, With, EventWords, SamplesBelow;
    var es := [e] + rest;
    assert es[1..] == rest && es[0] == e;
    var head, next := WordsOfEvent(v, e, n), if e.Sample? then n + 1 else n;
    LaterOnes(es, t);
    HeadSamples(es, t);
    HeadWith(es, t, Time);
    HeadEventWords(v, e, rest, n);
    HeadEventWords(v, e, With(rest, t, Time), n);
    EventTimes(v, e, n);
    WithJoin(head, EventWords(v, rest, next), t, WordTime);
    WithAll(head, t, WordTime);
  }

  lemma WordsElsewhere(v: Vec, e: Event, rest: seq<Event>, n: nat, t: int)
    requires SortedBy([e] + rest, Time) && e.t != t && WordsOfTime(v, rest, if e.Sample? then n + 1 else n, t)
    ensures WordsOfTime(v, [e] + rest, n, t)
  {
    hide WordsOfEvent, SortedBy, With, EventWords, SamplesBelow;
    var es := [e] + rest;
    assert es[1..] == rest && es[0] == e;
    var head, next := WordsOfEvent(v, e, n), if e.Sample? then n + 1 else n;
    HeadSamples(es, t);
    HeadWith(es, t, Time);
    HeadEventWords(v, e, rest, n);
    EventTimes(v, e, n);
    WithJoin(head, EventWords(v, rest, next), t, WordTime);
    WithNone(head, t, WordTime);
    var w := With(EventWords(v, rest, next), t, WordTime);
    assert [] + w == w;
    if e.t > t {
      LaterOnes(es, t);
      NoWordsOfTime(v, next, t);
      NoWordsOfTime(v, n, t);
    }
  }

  /** The words of the events of one time are those of that time, samples numbered on. */
  lemma {:induction false} EventWordsAt(v: Vec, es: seq<Event>, n: nat, t: int)
    requires SortedBy(es, Time)
    ensures WordsOfTime(v, es, n, t)
    decreases es
  {
    hide WordsOfTime, SortedBy;
    if es == [] {
      NoWordsOfTime(v, n, t);
    } else {
      var e, rest := es[0], es[1..];
      assert es == [e] + rest;
      SortedHead(es, Time);
      EventWordsAt(v, rest, if e.Sample? then n + 1 else n, t);
      if e.t == t { WordsHere(v, e, rest, n, t); } else { WordsElsewhere(v, e, rest, n, t); }
    }
  }

  /** The label of the sample of a time step is the one of its number. */
  lemma {:induction false} LabelAt(es: seq<Event>, t: int, e: Event)
    requires SortedBy(es, Time) && With(es, t, Time) == [e] && e.Sample?
    ensures SamplesBelow(es, t) < |LabelsOf(es)| && LabelsOf(es)[SamplesBelow(es, t)] == e.name
  {
    if es != [] {
      hide SortedBy, With, SamplesBelow;
      SortedHead(es, Time);
      HeadWith(es, t, Time);
      HeadSamples(es, t);
      if es[0].t == t {
        assert es[0] == [e][0];
        LaterOnes(es, t);
      } else {
        WithIn(es[1..], t, Time);
        assert e in [e];
        assert Time(e) >= Time(es[0]);
        LabelAt(es[1..], t, e);
      }
    }
  }

  /** The words of the clocks that start by themselves, clock by clock. */
  function SelfStarts(v: Vec, cs: seq<Clock>): seq<Word> {
    if cs == [] then []
    else (if cs[0].free && !Explicit(v, cs[0].index) then ClockWords(cs[0], cs[0].phase) else []) + SelfStarts(v, cs[1..])
  }

  lemma {:induction false} OneSelfStart(v: Vec, c: Clock, es: seq<Event>, open: Option<int>)
    requires forall e | e in es :: !StartOf(e, c.index)
    ensures ImplicitWords(v, RunsFrom(c, es, open)) ==
            if open.Some? && !Explicit(v, c.index) then ClockWords(c, open.value) else []
    decreases es
  {
    if es == [] {
      if open.Some? {
        assert [Span(c, open.value, None)][1..] == [];
      }
    } else {
      assert es[0] in es;
      if StopOf(es[0], c.index) && open.Some? {
        var r := [Span(c, open.value, Some(es[0].t))] + RunsFrom(c, es[1..], None);
        assert r[1..] == RunsFrom(c, es[1..], None);
        OneSelfStart(v, c, es[1..], None);
      } else {
        OneSelfStart(v, c, es[1..], open);
      }
    }
  }

  lemma {:induction false} NoSelfStart(v: Vec, c: Clock, runs: seq<Span>)
    requires Explicit(v, c.index) && forall r | r in runs :: r.clock == c
    ensures ImplicitWords(v, runs) == []
  {
    if runs != [] {
      assert runs[0] in runs;
      NoSelfStart(v, c, runs[1..]);
    }
  }

  lemma {:induction false} ImplicitJoin(v: Vec, a: seq<Span>, b: seq<Span>)
    ensures ImplicitWords(v, a + b) == ImplicitWords(v, a) + ImplicitWords(v, b)
    decreases a
  {
    if a == [] {
      assert a + b == b;
    } else {
      assert (a + b)[1..] == a[1..] + b && (a + b)[0] == a[0];
      ImplicitJoin(v, a[1..], b);
      var h := if Explicit(v, a[0].clock.index) then [] else ClockWords(a[0].clock, a[0].start);
      assert h + (ImplicitWords(v, a[1..]) + ImplicitWords(v, b)) == h + ImplicitWords(v, a[1..]) + ImplicitWords(v, b);
    }
  }

  lemma {:induction false} ImplicitIs(v: Vec, cs: seq<Clock>)
    ensures ImplicitWords(v, RunsOf(v, cs)) == SelfStarts(v, cs)
    decreases cs
  {
    if cs != [] {
      var c := cs[0];
      ImplicitIs(v, cs[1..]);
      ImplicitJoin(v, ClockRuns(v, c), RunsOf(v, cs[1..]));
      if c.free {
        RunsFromClock(c, v.events, if Explicit(v, c.index) then None else Some(c.phase));
        if Explicit(v, c.index) { NoSelfStart(v, c, ClockRuns(v, c)); } else { OneSelfStart(v, c, v.events, Some(c.phase)); }
      }
    }
  }

  /** The words of a time step up to the last event. */
  function WordsAt(v: Vec, t: int): seq<Word> {
    EventWords(v, EventsAt(v, t), SamplesBelow(v.events, t)) + With(SelfStarts(v, v.clocks), t, WordTime)
  }

  lemma SortedWordsAt(v: Vec, t: int)
    requires SortedBy(v.events, Time) && t <= LastTime(v) && v.header.settle >= 0
    ensures With(Sort(WordsOf(v), WordTime), t, WordTime) == WordsAt(v, t)
  {
    hide EventWords, ImplicitWords, FreeRuns, With, Sort, SelfStarts;
    WordsSort(v, t);
    ImplicitIs(v, v.clocks);
    assert FreeRuns(v) == RunsOf(v, v.clocks) by { FreeRunsAre(v); }
    var a, b, c := EventWords(v, v.events, 0), SelfStarts(v, v.clocks), EndWords(v);
    WithJoin(a + b, c, t, WordTime);
    WithJoin(a, b, t, WordTime);
    EventWordsAt(v, v.events, 0, t);
    WithNone(c, t, WordTime);
    var x := With(a, t, WordTime) + With(b, t, WordTime);
    assert x + [] == x;
  }

  lemma WordsSort(v: Vec, t: int)
    ensures With(Sort(WordsOf(v), WordTime), t, WordTime) == With(WordsOf(v), t, WordTime)
  {
    WithSort(WordsOf(v), t, WordTime);
  }

  lemma FreeRunsAre(v: Vec)
    ensures FreeRuns(v) == RunsOf(v, v.clocks)
  {}

  lemma SortHas(ws: seq<Word>, w: Word, t: int)
    requires w in ws && w.t > t
    ensures From(Sort(ws, WordTime), t + 1, WordTime) != []
  {
    SortSorted(ws, WordTime);
    FromIn(Sort(ws, WordTime), t + 1, WordTime);
    assert w in multiset(ws);
    assert w in Sort(ws, WordTime);
  }

  /** END is always still to come before the last event. */
  lemma EndAhead(v: Vec, t: int)
    requires t <= LastTime(v) && v.header.settle >= 0 && !(Ended(v) && t == LastTime(v))
    ensures From(Sort(WordsOf(v), WordTime), t + 1, WordTime) != []
  {
    hide EventWords, ImplicitWords, FreeRuns, Sort, From;
    var w := Word(END, 0, 0, if Ended(v) then LastTime(v) else (if v.events == [] then v.header.settle else LastTime(v)) + END_MARGIN);
    if Ended(v) {
      LastEventWord(v, v.events, 0);
      assert w in EventWords(v, v.events, 0);
    } else {
      assert w == EndWords(v)[0];
      assert w in EndWords(v);
    }
    SortHas(WordsOf(v), w, t);
  }

  lemma {:induction false} LastEventWord(v: Vec, es: seq<Event>, n: nat)
    requires es != [] && es[|es| - 1].End?
    ensures Word(END, 0, 0, es[|es| - 1].t) in EventWords(v, es, n)
    decreases es
  {
    if |es| > 1 { LastEventWord(v, es[1..], if es[0].Sample? then n + 1 else n); }
  }
}
