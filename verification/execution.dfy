/** What the operation process of the testbench makes of the words of one time step. */
module Execution {
  import opened Wrap
  import opened Sorting
  import opened Stimulus
  import opened Words
  import opened Compile
  import opened Generators
  import opened Schedule
  import T = Testbench
  import G = Golden

  function ExecAll(tb: T.Tb, ws: seq<Word>): (r: T.Tb)
    requires |tb.step| == |tb.gens|
    ensures |r.step| == |r.gens| == |tb.gens| && |r.nxt| == |tb.nxt|
    decreases ws
  {
    if ws == [] then tb else ExecAll(T.Exec(tb, ws[0]), ws[1..])
  }

  function ExecLogs(tb: T.Tb, ws: seq<Word>, t: int, labels: seq<string>): seq<T.Obs>
    requires |tb.step| == |tb.gens|
    decreases ws
  {
    if ws == [] then [] else T.ExecLog(tb, ws[0], t, labels) + ExecLogs(T.Exec(tb, ws[0]), ws[1..], t, labels)
  }

  lemma {:induction false} ExecJoin(tb: T.Tb, a: seq<Word>, b: seq<Word>, t: int, labels: seq<string>)
    requires |tb.step| == |tb.gens|
    ensures ExecAll(tb, a + b) == ExecAll(ExecAll(tb, a), b)
    ensures ExecLogs(tb, a + b, t, labels) == ExecLogs(tb, a, t, labels) + ExecLogs(ExecAll(tb, a), b, t, labels)
    decreases a
  {
    hide T.Exec, T.ExecLog;
    if a == [] {
      assert a + b == b;
    } else {
      assert (a + b)[1..] == a[1..] + b && (a + b)[0] == a[0];
      ExecJoin(T.Exec(tb, a[0]), a[1..], b, t, labels);
      var h, x, y := T.ExecLog(tb, a[0], t, labels), ExecLogs(T.Exec(tb, a[0]), a[1..], t, labels),
                     ExecLogs(ExecAll(tb, a), b, t, labels);
      assert h + (x + y) == h + x + y;
    }
  }

  /** Without END, a time step executes all its words and commits. */
  lemma {:induction false} MainRuns(tb: T.Tb, ws: seq<Word>, rest: seq<Word>, t: int, labels: seq<string>)
    requires |tb.step| == |tb.gens| && !tb.done && rest != [] && rest[0].t > t
    requires forall w | w in ws :: w.t == t && w.op != END
    ensures T.Main(tb, ws + rest, t) == T.Commit(ExecAll(tb, ws))
    ensures T.MainLog(tb, ws + rest, t, labels) == ExecLogs(tb, ws, t, labels) + T.CommitLog(ExecAll(tb, ws), t)
    decreases ws
  {
    if ws == [] {
      assert ws + rest == rest;
    } else {
      assert ws[0] in ws;
      assert (ws + rest)[1..] == ws[1..] + rest && (ws + rest)[0] == ws[0];
      assert !T.Exec(tb, ws[0]).done;
      hide T.Exec, T.ExecLog, T.Commit, T.CommitLog;
      MainRuns(T.Exec(tb, ws[0]), ws[1..], rest, t, labels);
      var h, x, y := T.ExecLog(tb, ws[0], t, labels), ExecLogs(T.Exec(tb, ws[0]), ws[1..], t, labels), T.CommitLog(ExecAll(tb, ws), t);
      assert h + (x + y) == h + x + y;
    }
  }

  // ---- sets ------------------------------------------------------------------------------------------

  lemma {:induction false} ExecSet(tb: T.Tb, lsb: int, value: seq<Logic>, t: int, labels: seq<string>)
    requires |tb.step| == |tb.gens|
    ensures ExecAll(tb, SetWords(lsb, value, t)) == tb.(nxt := G.PutBits(tb.nxt, lsb, value))
    ensures ExecLogs(tb, SetWords(lsb, value, t), t, labels) == []
    decreases |value|
  {
    if value != [] {
      var ws := SetWords(lsb, value, t);
      var w := Word(SET, lsb, Code(value[|value| - 1]), t);
      assert ws[0] == w && ws[1..] == SetWords(lsb + 1, value[..|value| - 1], t);
      assert T.FourState(Code(value[|value| - 1])) == value[|value| - 1];
      ExecSet(T.Exec(tb, w), lsb + 1, value[..|value| - 1], t, labels);
    }
  }

  /** Plain sets of one time reach the shadow vector in order and show nothing yet. */
  lemma {:induction false} ExecSets(v: Vec, tb: T.Tb, es: seq<Event>, n: nat, t: int, labels: seq<string>)
    requires |tb.step| == |tb.gens| && forall e | e in es :: e.Set? && e.t == t
    ensures ExecAll(tb, EventWords(v, es, n)) == tb.(nxt := G.ApplySets(tb.nxt, es))
    ensures ExecLogs(tb, EventWords(v, es, n), t, labels) == []
    decreases es
  {
    if es != [] {
      var e := es[0];
      assert e in es;
      SetEvent(v, e, n);
      hide WordsOfEvent;
      ExecSet(tb, e.lsb, e.value, t, labels);
      var mid := tb.(nxt := G.PutBits(tb.nxt, e.lsb, e.value));
      ExecSets(v, mid, es[1..], n, t, labels);
      ExecJoin(tb, WordsOfEvent(v, e, n), EventWords(v, es[1..], n), t, labels);
    }
  }

  // ---- generators ------------------------------------------------------------------------------------

  function GenWord(g: T.Gen, w: Word, k: nat): T.Gen {
    if w.idx != k then g
    else if w.op == CLK_HI then g.(hi := w.val)
    else if w.op == CLK_START then g.(lo := w.val, en := true)
    else if w.op == CLK_STOP then g.(en := false)
    else g
  }

  /** The effect of words on the generator of clock `k`. */
  function GenWords(g: T.Gen, ws: seq<Word>, k: nat): T.Gen
    decreases ws
  {
    if ws == [] then g else GenWords(GenWord(g, ws[0], k), ws[1..], k)
  }

  lemma {:induction false} ExecGens(tb: T.Tb, ws: seq<Word>, k: nat)
    requires |tb.step| == |tb.gens| && k < |tb.gens|
    ensures ExecAll(tb, ws).gens[k] == GenWords(tb.gens[k], ws, k)
    decreases ws
  {
    if ws != [] {
      assert T.Exec(tb, ws[0]).gens[k] == GenWord(tb.gens[k], ws[0], k);
      ExecGens(T.Exec(tb, ws[0]), ws[1..], k);
    }
  }

  lemma {:induction false} GenWordsJoin(g: T.Gen, a: seq<Word>, b: seq<Word>, k: nat)
    ensures GenWords(g, a + b, k) == GenWords(GenWords(g, a, k), b, k)
    decreases a
  {
    if a == [] {
      assert a + b == b;
    } else {
      assert (a + b)[1..] == a[1..] + b && (a + b)[0] == a[0];
      GenWordsJoin(GenWord(g, a[0], k), a[1..], b, k);
    }
  }

  predicate Clocking(w: Word) { w.op == CLK_HI || w.op == CLK_START || w.op == CLK_STOP }

  lemma {:induction false} GenWordsNone(g: T.Gen, ws: seq<Word>, k: nat)
    requires forall w | w in ws :: w.idx != k || !Clocking(w)
    ensures GenWords(g, ws, k) == g
    decreases ws
  {
    if ws != [] {
      assert ws[0] in ws;
      GenWordsNone(g, ws[1..], k);
    }
  }

  lemma ClockStarts(g: T.Gen, c: Clock, t: int, k: nat)
    ensures GenWords(g, ClockWords(c, t), k) == if c.index == k then Effect(g, c, Begin) else g
  {
    var ws := ClockWords(c, t);
    var a, b := ws[0], ws[1];
    assert ws[1..] == [b] && [b][1..] == [];
    assert GenWords(g, ws, k) == GenWords(GenWord(g, a, k), [b], k);
    assert GenWords(GenWord(g, a, k), [b], k) == GenWord(GenWord(g, a, k), b, k);
  }

  lemma ExecClock(tb: T.Tb, w: Word, t: int, labels: seq<string>)
    requires |tb.step| == |tb.gens| && Clocking(w)
    ensures var r := T.Exec(tb, w); r.nxt == tb.nxt == r.vec && r.step == tb.step && r.done == tb.done
    ensures T.ExecLog(tb, w, t, labels) == T.CommitLog(tb, t)
    ensures T.CommitLog(T.Exec(tb, w), t) == []
  {}

  /** Clock words commit the sets of the step and touch nothing but the generators. */
  lemma {:induction false} ExecClocking(tb: T.Tb, ws: seq<Word>, t: int, labels: seq<string>)
    requires |tb.step| == |tb.gens| && forall w | w in ws :: Clocking(w)
    ensures var r := ExecAll(tb, ws);
            && r.nxt == tb.nxt && r.step == tb.step && r.done == tb.done && r.vec == (if ws == [] then tb.vec else tb.nxt)
    ensures ExecLogs(tb, ws, t, labels) == if ws == [] then [] else T.CommitLog(tb, t)
    ensures ExecLogs(tb, ws, t, labels) + T.CommitLog(ExecAll(tb, ws), t) == T.CommitLog(tb, t)
    decreases ws
  {
    hide T.Exec, T.ExecLog, T.CommitLog;
    if ws != [] {
      assert ws[0] in ws;
      ExecClock(tb, ws[0], t, labels);
      ExecClocking(T.Exec(tb, ws[0]), ws[1..], t, labels);
    }
  }

  /** What the events of the step do to the generator of a clock. */
  lemma EventGen(v: Vec, c: Clock, k: nat, es: seq<Event>, n: nat, g: T.Gen)
    requires FindClock(v.clocks, k) == Some(c) && c.index == k
    requires |es| > 1 ==> forall e | e in es :: e.Set?
    ensures GenWords(g, EventWords(v, es, n), k) == Effect(g, c, ActionIn(c, es))
  {
    if |es| > 1 {
      NoAction(c, es);
      SetsOnly(v, es, n);
      GenWordsNone(g, EventWords(v, es, n), k);
    } else if |es| == 1 {
      var e := es[0];
      assert es[1..] == [];
      assert EventWords(v, es, n) == WordsOfEvent(v, e, n);
      OneEventGen(v, c, k, e, n, g);
    }
  }

  lemma {:induction false} SetsOnly(v: Vec, es: seq<Event>, n: nat)
    requires forall e | e in es :: e.Set?
    ensures forall w | w in EventWords(v, es, n) :: w.op == SET
    decreases es
  {
    if es != [] {
      assert es[0] in es;
      SetWordTimes(es[0].lsb, es[0].value, es[0].t);
      SetsOnly(v, es[1..], n);
    }
  }

  lemma {:induction false} FoundIndex(cs: seq<Clock>, k: int)
    ensures FindClock(cs, k).Some? ==> FindClock(cs, k).value in cs && FindClock(cs, k).value.index == k
    ensures FindClock(cs, k).None? ==> forall c | c in cs :: c.index != k
  {
    if cs != [] { FoundIndex(cs[1..], k); }
  }

  lemma OneEventGen(v: Vec, c: Clock, k: nat, e: Event, n: nat, g: T.Gen)
    requires FindClock(v.clocks, k) == Some(c) && c.index == k
    ensures GenWords(g, WordsOfEvent(v, e, n), k) == Effect(g, c, ActionIn(c, [e]))
  {
    assert [e][1..] == [];
    var ws := WordsOfEvent(v, e, n);
    match e
    case ClockStart(t, _, clk) =>
      FoundIndex(v.clocks, clk);
      if FindClock(v.clocks, clk).Some? { ClockStarts(g, FindClock(v.clocks, clk).value, t, k); }
    case ClockStop(_, _, _) =>
      assert ws[1..] == [];
    case Set(t, _, lsb, _, value) =>
      SetWordTimes(lsb, value, t);
      GenWordsNone(g, ws, k);
    case _ =>
      GenWordsNone(g, ws, k);
  }

  /** The words that start clocks by themselves, at one time. */
  lemma {:induction false} SelfStartGen(v: Vec, cs: seq<Clock>, t: int, k: nat, g: T.Gen)
    requires forall i, j :: 0 <= i < j < |cs| ==> cs[i].index != cs[j].index
    ensures GenWords(g, With(SelfStarts(v, cs), t, WordTime), k) ==
            (var f := FindClock(cs, k);
             if f.Some? && f.value.free && !Explicit(v, k) && f.value.phase == t then Effect(g, f.value, Begin) else g)
    ensures forall w | w in With(SelfStarts(v, cs), t, WordTime) :: Clocking(w) && w.t == t
    decreases cs
  {
    if cs != [] {
      var c := cs[0];
      var head, rest := if c.free && !Explicit(v, c.index) then ClockWords(c, c.phase) else [], SelfStarts(v, cs[1..]);
      FoundIndex(cs[1..], k);
      SelfStartGen(v, cs[1..], t, k, if c.index == k then GenWords(g, With(head, t, WordTime), k) else g);
      WithJoin(head, rest, t, WordTime);
      var x, y := With(head, t, WordTime), With(rest, t, WordTime);
      GenWordsJoin(g, x, y, k);
      HeadWords(c, c.phase, t);
      ClockStarts(g, c, c.phase, k);
      if c.index == k {
        forall d | d in cs[1..]
          ensures d.index != k
        {
          var i :| 0 <= i < |cs[1..]| && cs[1..][i] == d;
          assert cs[0].index != cs[i + 1].index;
        }
      }
    }
  }

  lemma HeadWords(c: Clock, p: int, t: int)
    ensures With(ClockWords(c, p), t, WordTime) == if p == t then ClockWords(c, p) else []
    ensures With([], t, WordTime) == []
    ensures forall w | w in ClockWords(c, p) :: Clocking(w) && w.t == p
  {
    if p == t { WithAll(ClockWords(c, p), t, WordTime); } else { WithNone(ClockWords(c, p), t, WordTime); }
  }
}
