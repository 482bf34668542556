/** The port-class rules of stimulus files and their hardware renderability (validate.py), stated
    over the timeline: the events that are not initialisation, merged with the free-clock edges. */
module Validation {
  import opened Wrap
  import opened Sorting
  import opened Stimulus

  const MIN_SEP := 1_000
  const ROC_WIDTH := 100_000
  const MIN_SETTLE := ROC_WIDTH + MIN_SEP

  function Max(a: int, b: int): int { if a > b then a else b }

  function Abs(x: int): int { if x < 0 then -x else x }

  /** `min_event_gap`; a recorded gap of 0 counts as none. */
  function MinGap(sep: int, m: DutMap): int {
    Max(sep, if m.minEventGap.Some? && m.minEventGap.value != 0 then m.minEventGap.value else MIN_SEP)
  }

  function Sep(v: Vec): int { if v.header.sep.Some? then v.header.sep.value else MIN_SEP }

  /** Changes of the inputs; samples, clock starts and stops and the end are none. */
  predicate Change(e: Event) { e.Set? || e.Edge? || e.Glbl? }

  function Later(es: seq<Event>): seq<Event> {
    if es == [] then [] else (if Initial(es[0]) then [] else [es[0]]) + Later(es[1..])
  }

  function Timeline(v: Vec): seq<Event>
    requires ClocksOk(v)
  {
    Sort(Later(v.events) + FreeEdges(v), Time)
  }

  // ---- classes ---------------------------------------------------------------------------------------

  predicate InRange(m: DutMap, e: Event) { e.Set? && 0 <= e.lsb <= e.msb < m.nin }

  predicate AsyncBit(m: DutMap, b: int)
    requires Numbered(m) && 0 <= b < m.nin
  {
    InClass(m, b) == Async || InClass(m, b) == Gate
  }

  /** The set changes an async or gate bit. */
  predicate AsyncSet(m: DutMap, e: Event)
    requires Numbered(m)
  {
    InRange(m, e) && exists b :: e.lsb <= b <= e.msb && AsyncBit(m, b)
  }

  /** Not an async bit together with any other bit. */
  predicate Unmixed(m: DutMap, e: Event)
    requires Numbered(m)
  {
    AsyncSet(m, e) ==> e.lsb == e.msb
  }

  /** A change that must be alone at its time unless everything there is marked. */
  predicate Lonely(m: DutMap, e: Event)
    requires Numbered(m)
  {
    e.Edge? || e.Glbl? || AsyncSet(m, e)
  }

  predicate HasX(e: Event) { e.Set? && exists x | x in e.value :: x == LX || x == LZ }

  // ---- errors ----------------------------------------------------------------------------------------

  predicate HeaderMatches(v: Vec, m: DutMap) {
    && v.header.nin == m.nin && v.header.nout == m.nout && v.header.nclk == m.nclk
    && v.header.prim == m.prim && v.header.cfg == m.cfg && v.header.attrs == m.attrs
    && v.header.settle >= MIN_SETTLE
  }

  /** `_check_reject`. */
  predicate RejectOk(h: Header) {
    if h.reject then h.illegal.Some? && h.illegal.value != [] && forall n | n in h.illegal.value :: n in h.attrs
    else h.illegal.None?
  }

  predicate Sampled(v: Vec) { v.header.reject || exists e :: e in v.events && e.Sample? }

  predicate NoClockBits(es: seq<Event>, m: DutMap)
    requires Numbered(m)
  {
    forall e | e in es && InRange(m, e) :: forall b :: e.lsb <= b <= e.msb ==> InClass(m, b) != ClockIn
  }

  /** `_check_gsr_release`. */
  predicate ClearOfRelease(tl: seq<Event>, sep: int) {
    forall e | e in tl :: Abs(e.t - ROC_WIDTH) >= sep
  }

  predicate AllMarked(tl: seq<Event>, t: int) { forall e | e in tl && e.t == t && Change(e) :: e.sim }

  predicate SamplesApart(tl: seq<Event>) {
    forall a, b | a in tl && b in tl && a.Sample? && Change(b) ::
      a.t != b.t && (b.t < a.t ==> a.t - b.t >= MIN_SEP)
  }

  predicate Alone(tl: seq<Event>, m: DutMap)
    requires Numbered(m)
  {
    forall i, j | 0 <= i < |tl| && 0 <= j < |tl| && i != j && tl[i].t == tl[j].t && Change(tl[i]) && Change(tl[j]) ::
      !AllMarked(tl, tl[i].t) ==> !Lonely(m, tl[i])
  }

  predicate NoMixedSets(tl: seq<Event>, m: DutMap)
    requires Numbered(m)
  {
    forall e | e in tl && e.Set? && !AllMarked(tl, e.t) :: Unmixed(m, e)
  }

  /** The edges of one clock alternate from `level`. */
  predicate Alternates(tl: seq<Event>, clk: int, level: bool) {
    tl == []
    || if tl[0].Edge? && tl[0].clk == clk then tl[0].rise != level && Alternates(tl[1..], clk, tl[0].rise)
       else Alternates(tl[1..], clk, level)
  }

  /** The level of a clock after the events. */
  function LevelAfter(es: seq<Event>, clk: int, level: bool): bool {
    if es == [] then level
    else LevelAfter(es[1..], clk, if es[0].Edge? && es[0].clk == clk then es[0].rise else level)
  }

  lemma {:induction false} LevelAppend(a: seq<Event>, b: seq<Event>, k: int, l: bool)
    ensures LevelAfter(a + b, k, l) == LevelAfter(b, k, LevelAfter(a, k, l))
    decreases a
  {
    if a == [] {
      assert a + b == b;
    } else {
      assert (a + b)[1..] == a[1..] + b && (a + b)[0] == a[0];
      LevelAppend(a[1..], b, k, if a[0].Edge? && a[0].clk == k then a[0].rise else l);
    }
  }

  lemma {:induction false} AlternatesSplit(a: seq<Event>, b: seq<Event>, k: int, l: bool)
    ensures Alternates(a + b, k, l) <==> Alternates(a, k, l) && Alternates(b, k, LevelAfter(a, k, l))
    decreases a
  {
    if a == [] {
      assert a + b == b;
    } else {
      assert (a + b)[1..] == a[1..] + b && (a + b)[0] == a[0];
      AlternatesSplit(a[1..], b, k, if a[0].Edge? && a[0].clk == k then a[0].rise else l);
    }
  }

  predicate EdgesOk(v: Vec, tl: seq<Event>)
    requires ClocksOk(v)
  {
    && (forall c | c in v.clocks && !c.free :: Alternates(tl, c.index, false))
    && (forall e | e in tl && e.Edge? && DeclaredFree(v, e.clk) :: Edge(e.t, false, e.clk, e.rise) in FreeEdges(v))
  }

  /** A change held to the separation from clock edges. */
  predicate Separated(m: DutMap, e: Event)
    requires Numbered(m)
  {
    !e.sim && ((e.Glbl? && e.sig == GSR) || AsyncSet(m, e))
  }

  predicate AsyncApart(tl: seq<Event>, m: DutMap, sep: int)
    requires Numbered(m)
  {
    forall a, b | a in tl && b in tl && Separated(m, a) && b.Edge? :: Abs(a.t - b.t) >= sep
  }

  /** `_check_free_stops`. */
  predicate StopOk(v: Vec, r: Span)
    requires r.clock.period > 0
  {
    r.stop.Some? ==>
      var pos := (r.stop.value - r.start) % r.clock.period;
      && High(r.clock) < pos
      && forall e | e in v.events && StartOf(e, r.clock.index) && e.t > r.stop.value :: e.t >= r.stop.value + (r.clock.period - pos)
  }

  predicate StopsOk(v: Vec)
    requires ClocksOk(v)
  {
    RunClocks(v, v.clocks);
    forall r | r in FreeRuns(v) :: StopOk(v, r)
  }

  /** `validate` reports no error. */
  predicate ErrorFree(v: Vec, m: DutMap)
    requires Numbered(m)
  {
    && StructureOk(v)
    && HeaderMatches(v, m)
    && Sep(v) >= MIN_SEP
    && StopsOk(v)
    && NoClockBits(v.events, m)
    && RejectOk(v.header)
    && Sampled(v)
    && var tl := Timeline(v);
       && ClearOfRelease(tl, Sep(v))
       && SamplesApart(tl)
       && Alone(tl, m)
       && NoMixedSets(tl, m)
       && EdgesOk(v, tl)
       && AsyncApart(tl, m, Sep(v))
  }

  // ---- hardware renderability ------------------------------------------------------------------------

  predicate NoPads(m: DutMap) { forall b | b in m.bits :: b.cls != Pad && b.cls != Bidir && b.role == Plain }

  /** `_check_event_gaps`: distinct event times are at least `gap` apart, initialisation excluded. */
  predicate GapsOk(es: seq<Event>, gap: int) {
    forall a, b | a in es && b in es && !Initial(a) && !Initial(b) && a.t < b.t :: b.t - a.t >= gap
  }

  /** `validate` gives no reason against hardware. */
  predicate Renderable(v: Vec, m: DutMap) {
    && NoPads(m)
    && (forall c | c in v.clocks :: !c.free)
    && GapsOk(v.events, MinGap(Sep(v), m))
    && (forall e | e in v.events :: !HasX(e) && !e.Glbl?)
    && (forall e | e in v.events && !Initial(e) :: !e.sim)
  }
}
