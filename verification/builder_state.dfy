/** The state of the stimulus builder (stimgen.py) as a value, what each call does to it, and the
    proof that whatever calls succeed, the stimulus built is valid. `Builder` is the builder itself. */
module BuilderState {
  import opened Wrap
  import opened Sorting
  import opened Stimulus
  import opened Validation
  import opened BuilderFacts
  import Decimal

  /** One keyword argument of `set` or `init`. */
  datatype Assign = Assign(port: string, value: Value)

  /** What the constructor fixes; `gap` is the gap actually used between distinct event times. */
  datatype Params = Params(m: DutMap, seed: int, settle: int, period: int, gap: int, sep: int,
                           reject: bool, illegal: seq<string>)

  /** What the calls update. `setAt` and `setPorts`: the time of the last sets and the ports set
      then; `open`: inside a simultaneous block, of `group` events so far. */
  datatype Cursor = Cursor(t: int, events: seq<Event>, vals: map<string, Value>, level: map<int, bool>,
                           setAt: int, setPorts: set<string>, lastChange: int, lastEdge: Option<int>,
                           n: nat, labels: set<string>, open: bool, group: nat)

  /** `VecBuilder.__init__` accepts these times. */
  predicate TimesOk(m: DutMap, settle: int, period: int, gap: int, sep: int) {
    gap >= MIN_SEP && sep >= MIN_SEP && settle >= MIN_SETTLE && 3 * Max(gap, MinGap(sep, m)) <= period / 2
  }

  function Zeros(ports: set<string>): map<string, Value> { map p | p in ports :: Num(0) }

  function InPorts(m: DutMap): set<string> { set b | b in m.bits && InBits(m, b.port) != [] :: b.port }

  function IdleLevels(n: nat): (r: map<int, bool>)
    ensures forall k :: 0 <= k < n ==> k in r && !r[k]
  {
    if n == 0 then map[] else IdleLevels(n - 1)[n - 1 := false]
  }

  function Start(c: Params): Cursor {
    Cursor(c.settle, [], Zeros(InPorts(c.m)), IdleLevels(c.m.nclk), -1, {}, 0, None, 0, {}, false, 0)
  }

  // ---- the calls -------------------------------------------------------------------------------------

  function Stamp(e: Event, t: int, sim: bool): Event { e.(t := t, sim := sim) }

  /** `_emit`: the event at a time of its own or of the open block. */
  function Emit(c: Params, s: Cursor, op: Event): Cursor {
    var t := NewTime(s.events, s.t, c.gap);
    s.(t := t, events := s.events + [Stamp(op, t, s.open)], group := if s.open then s.group + 1 else s.group)
  }

  function Taken(c: Params, s: Cursor): set<string> {
    if s.setAt == NewTime(s.events, s.t, c.gap) then s.setPorts else {}
  }

  predicate PutOk(c: Params, s: Cursor, a: Assign) {
    InBits(c.m, a.port) != [] && a.port !in Taken(c, s) && BitsOf(a.value, |InBits(c.m, a.port)|).Some?
  }

  function PutOp(c: Params, s: Cursor, a: Assign): Event
    requires PutOk(c, s, a)
  {
    Set(0, false, Lo(c.m, a.port), Hi(c.m, a.port), BitsOf(a.value, |InBits(c.m, a.port)|).value)
  }

  /** `_put`. */
  function Put(c: Params, s: Cursor, a: Assign): Cursor
    requires PutOk(c, s, a)
  {
    var after := Emit(c, s, PutOp(c, s, a));
    after.(vals := s.vals[a.port := a.value], setAt := after.t, setPorts := Taken(c, s) + {a.port}, lastChange := after.t)
  }

  /** A port already at its value: `set` leaves it alone. */
  predicate Holds(s: Cursor, a: Assign) { a.port in s.vals && s.vals[a.port] == a.value }

  /** The loop of `set` (which skips ports that hold) and of `init` (which does not). */
  function PutAll(c: Params, s: Cursor, args: seq<Assign>, skip: bool): Option<Cursor>
    decreases args
  {
    if args == [] then Some(s)
    else if skip && Holds(s, args[0]) then PutAll(c, s, args[1..], skip)
    else if PutOk(c, s, args[0]) then PutAll(c, Put(c, s, args[0]), args[1..], skip)
    else None
  }

  function Initialised(c: Params, s: Cursor, args: seq<Assign>): Option<Cursor> {
    if (exists e :: e in s.events && e.t > 0) || s.open then None else
    var r := PutAll(c, s.(t := 0), args, false);
    if r.None? then None else Some(r.value.(t := s.t, lastChange := 0))
  }

  /** Outside a block only data-class ports may be set. */
  predicate Settable(c: Params, s: Cursor, a: Assign) {
    ClsOf(c.m.bits, a.port).Some? && (s.open || !(ClsOf(c.m.bits, a.port).value in {Async, Gate, ClockIn}))
  }

  function Clear(s: Cursor, room: int): int {
    if s.lastEdge.Some? && !s.open then Max(s.t, s.lastEdge.value + room) else s.t
  }

  /** When `set` sets: clear of the last edge, and a gap later when a port was already set now. */
  function SetTime(c: Params, s: Cursor, args: seq<Assign>): int {
    var t := Clear(s, c.gap);
    if !s.open && s.setAt == t && (exists a :: a in args && a.port in s.setPorts) then t + c.gap else t
  }

  function SetDone(c: Params, s: Cursor, args: seq<Assign>): Option<Cursor> {
    if forall a | a in args :: Settable(c, s, a) then PutAll(c, s.(t := SetTime(c, s, args)), args, true) else None
  }

  /** `_alone_start` and the separation from the last edge. */
  function AloneTime(c: Params, s: Cursor, room: int): int {
    if s.open then s.t else Clear(s.(t := Max(s.t, s.lastChange + c.gap)), room)
  }

  /** `_alone_end` and the separation of what follows. */
  function Apart(c: Params, s: Cursor): Cursor {
    if s.open then s else s.(t := Max(s.t + c.gap, s.lastChange + c.sep))
  }

  function AsyncDone(c: Params, s: Cursor, a: Assign): Option<Cursor> {
    if !s.open && |InBits(c.m, a.port)| > 1 then None else
    var before := s.(t := AloneTime(c, s, c.sep));
    if PutOk(c, before, a) then Some(Apart(c, Put(c, before, a))) else None
  }

  function GlblDone(c: Params, s: Cursor, sig: Signal, level: bool): Cursor {
    var after := Emit(c, s.(t := AloneTime(c, s, c.sep)), Glbl(0, false, sig, level));
    Apart(c, after.(lastChange := after.t))
  }

  /** The clock behind a port: `clock_name` refuses a port that is not one clock bit. */
  function ClockOf(c: Params, port: string): Option<int> {
    var pb := PortBits(c.m.bits, Clk, port, Plain);
    if |pb| == 1 then Some(pb[0].bit) else None
  }

  function EdgeDone(c: Params, s: Cursor, port: string, rising: bool): Option<Cursor> {
    var clk := ClockOf(c, port);
    if clk.None? || clk.value !in s.level || s.level[clk.value] == rising then None else
    var at := if s.open then s.t else Max(s.t, s.lastChange + c.gap);
    var after := Emit(c, s.(t := at), Edge(0, false, clk.value, rising));
    Some(after.(level := s.level[clk.value := rising], lastEdge := Some(after.t), lastChange := after.t,
                t := if s.open then after.t else after.t + c.gap))
  }

  function LabelOf(s: Cursor, name: Option<string>): string {
    if name.Some? then name.value else "S" + Decimal.Dec(s.n)
  }

  function SampleDone(c: Params, s: Cursor, name: Option<string>): Option<Cursor> {
    var l := LabelOf(s, name);
    if s.open || !IsLabel(l) || l in s.labels then None else
    var after := Emit(c, s.(t := Max(s.t, s.lastChange + c.gap)), Sample(0, false, l));
    Some(after.(t := after.t + c.gap, labels := s.labels + {l}, n := if name.None? then s.n + 1 else s.n))
  }

  /** An edge of `cycle`, and its sample if asked for. */
  function HalfCycle(c: Params, s: Cursor, port: string, rising: bool, sample: bool): Option<Cursor> {
    var e := EdgeDone(c, s, port, rising);
    if e.None? || !sample then e else SampleDone(c, e.value, None)
  }

  function OneCycle(c: Params, s: Cursor, port: string, sample: bool): Option<Cursor> {
    var start := Max(s.t, s.lastChange + c.gap);
    var high := HalfCycle(c, s.(t := start), port, true, sample);
    if high.None? then None else
    var low := HalfCycle(c, high.value.(t := Max(high.value.t, start + c.period / 2)), port, false, sample);
    if low.None? then None else Some(low.value.(t := Max(low.value.t, start + c.period)))
  }

  function Cycles(c: Params, s: Cursor, port: string, n: nat, sample: bool): Option<Cursor>
    decreases n
  {
    if n == 0 then Some(s) else
    var one := OneCycle(c, s, port, sample);
    if one.None? then None else Cycles(c, one.value, port, n - 1, sample)
  }

  /** The only clock port of the map. */
  function OnlyClock(m: DutMap): Option<string> {
    var clks := Of(m.bits, Clk);
    if clks != [] && forall b | b in clks :: b.port == clks[0].port then Some(clks[0].port) else None
  }

  function CycleDone(c: Params, s: Cursor, port: Option<string>, n: int, sample: bool): Option<Cursor> {
    var p := if port.Some? then port else OnlyClock(c.m);
    if s.open || p.None? then None else Cycles(c, s, p.value, if n < 0 then 0 else n, sample)
  }

  function WaitDone(s: Cursor, ps: int): Option<Cursor> {
    if s.open || ps < 0 then None else Some(s.(t := s.t + ps))
  }

  function Opened(c: Params, s: Cursor): Option<Cursor> {
    if s.open then None else
    Some(s.(t := Clear(s.(t := Max(s.t, s.lastChange + c.gap)), c.gap), open := true, group := 0))
  }

  function Closed(c: Params, s: Cursor): Option<Cursor> {
    if !s.open || s.group < 2 then None else Some(s.(open := false, group := 0, t := s.t + c.gap))
  }

  /** When `build` ends the stimulus. */
  function EndTime(c: Params, s: Cursor): int {
    NewTime(s.events, Max(s.t, s.lastChange + c.gap), c.gap)
  }

  function Finished(c: Params, s: Cursor): Vec {
    Vec(Header(c.m.prim, c.m.cfg, c.m.nin, c.m.nout, c.m.nclk, c.settle, c.seed, Some(c.sep), c.reject,
               if c.illegal == [] then None else Some(c.illegal), c.m.attrs),
        StepClocks(c.m, c.period, c.m.nclk), s.events + [End(EndTime(c, s), false)])
  }

  // ---- runs ------------------------------------------------------------------------------------------

  datatype Call =
    | CallInit(args: seq<Assign>)
    | CallSet(args: seq<Assign>)
    | CallAsync(arg: Assign)
    | CallGlbl(sig: Signal, level: bool)
    | CallEdge(port: string, rising: bool)
    | CallSample(name: Option<string>)
    | CallCycle(clock: Option<string>, n: int, sample: bool)
    | CallWait(ps: int)
    | CallOpen
    | CallClose

  /** The state after a call, or None when the call raises. */
  function After(c: Params, s: Cursor, call: Call): Option<Cursor> {
    match call
    case CallInit(args) => Initialised(c, s, args)
    case CallSet(args) => SetDone(c, s, args)
    case CallAsync(a) => AsyncDone(c, s, a)
    case CallGlbl(sig, level) => Some(GlblDone(c, s, sig, level))
    case CallEdge(port, rising) => EdgeDone(c, s, port, rising)
    case CallSample(name) => SampleDone(c, s, name)
    case CallCycle(port, n, sample) => CycleDone(c, s, port, n, sample)
    case CallWait(ps) => WaitDone(s, ps)
    case CallOpen => Opened(c, s)
    case CallClose => Closed(c, s)
  }

  // ---- what a call that raises leaves behind ---------------------------------------------------------

  /** `_put`: the time is taken and the port marked as set, unless there is no such port. */
  function PutLeft(c: Params, s: Cursor, a: Assign): Cursor {
    if InBits(c.m, a.port) == [] then s else
    var t := NewTime(s.events, s.t, c.gap);
    s.(t := t, setAt := t, setPorts := Taken(c, s) + {a.port})
  }

  /** The ports before the refused one stay set. */
  function PutAllLeft(c: Params, s: Cursor, args: seq<Assign>, skip: bool): Cursor
    requires PutAll(c, s, args, skip).None?
    decreases args
  {
    if skip && Holds(s, args[0]) then PutAllLeft(c, s, args[1..], skip)
    else if PutOk(c, s, args[0]) then PutAllLeft(c, Put(c, s, args[0]), args[1..], skip)
    else PutLeft(c, s, args[0])
  }

  /** A number taken for a label stays taken. */
  function SampleLeft(s: Cursor, name: Option<string>): Cursor {
    if s.open || name.Some? then s else s.(n := s.n + 1)
  }

  function HalfLeft(c: Params, s: Cursor, port: string, rising: bool): Cursor {
    var e := EdgeDone(c, s, port, rising);
    if e.None? then s else SampleLeft(e.value, None)
  }

  function OneLeft(c: Params, s: Cursor, port: string, sample: bool): Cursor
    requires OneCycle(c, s, port, sample).None?
  {
    var start := Max(s.t, s.lastChange + c.gap);
    var high := HalfCycle(c, s.(t := start), port, true, sample);
    if high.None? then HalfLeft(c, s.(t := start), port, true)
    else HalfLeft(c, high.value.(t := Max(high.value.t, start + c.period / 2)), port, false)
  }

  function CyclesLeft(c: Params, s: Cursor, port: string, n: nat, sample: bool): Cursor
    requires Cycles(c, s, port, n, sample).None?
    decreases n
  {
    var one := OneCycle(c, s, port, sample);
    if one.None? then OneLeft(c, s, port, sample) else CyclesLeft(c, one.value, port, n - 1, sample)
  }

  /** A negative number of cycles is none. */
  function CycleLeft(c: Params, s: Cursor, port: Option<string>, n: int, sample: bool): Cursor
    requires CycleDone(c, s, port, n, sample).None?
  {
    var p := if port.Some? then port else OnlyClock(c.m);
    if s.open || p.None? || n < 0 then s else CyclesLeft(c, s, p.value, n, sample)
  }

  function InitLeft(c: Params, s: Cursor, args: seq<Assign>): Cursor
    requires Initialised(c, s, args).None?
  {
    if (exists e :: e in s.events && e.t > 0) || s.open then s else PutAllLeft(c, s.(t := 0), args, false)
  }

  function SetLeft(c: Params, s: Cursor, args: seq<Assign>): Cursor
    requires SetDone(c, s, args).None?
  {
    if exists a :: a in args && !Settable(c, s, a) then s else PutAllLeft(c, s.(t := SetTime(c, s, args)), args, true)
  }

  /** The state after a call that raises. */
  function Left(c: Params, s: Cursor, call: Call): Cursor
    requires After(c, s, call).None?
  {
    match call
    case CallInit(args) => InitLeft(c, s, args)
    case CallSet(args) => SetLeft(c, s, args)
    case CallAsync(a) =>
      if !s.open && |InBits(c.m, a.port)| > 1 then s else PutLeft(c, s.(t := AloneTime(c, s, c.sep)), a)
    case CallSample(name) => SampleLeft(s, name)
    case CallCycle(port, n, sample) => CycleLeft(c, s, port, n, sample)
    case CallClose => s.(open := false, group := if s.open then 0 else s.group)
    case _ => s
  }

  /** The state after a sequence of calls of which none raises. */
  function Run(c: Params, s: Cursor, calls: seq<Call>): Option<Cursor>
    decreases calls
  {
    if calls == [] then Some(s) else
    var r := After(c, s, calls[0]);
    if r.None? then None else Run(c, r.value, calls[1..])
  }

  // ---- the invariant ---------------------------------------------------------------------------------

  function U(c: Params): Setup { Setup(c.m, c.settle, c.gap) }

  ghost predicate Fixed(c: Params) {
    SetupOk(U(c)) && MIN_SEP <= c.sep <= c.gap && MinGap(c.sep, c.m) <= c.gap && 3 * c.gap <= c.period / 2
  }

  /** Nothing was emitted at or just before `t`. */
  predicate FreshTime(es: seq<Event>, t: int, gap: int) {
    es == [] || Initial(es[|es| - 1]) || es[|es| - 1].t + gap <= t
  }

  predicate Reached(es: seq<Event>, t: int) { es != [] ==> es[|es| - 1].t <= t }

  /** What was set at the last time anything was set. */
  ghost predicate Memory(m: DutMap, s: Cursor) {
    && (forall e | e in s.events && e.Set? :: e.t <= s.setAt && (e.t == s.setAt ==> exists p :: p in s.setPorts && SetOf(m, p, e)))
    && (s.setAt == -1 || (s.events != [] && s.setAt <= s.events[|s.events| - 1].t))
  }

  ghost predicate Levels(c: Params, s: Cursor) {
    forall clk :: StepClock(U(c), clk) ==> clk in s.level && s.level[clk] == LevelAfter(s.events, clk, false)
  }

  ghost predicate PortsKnown(m: DutMap, vals: map<string, Value>) { forall p :: p in vals <==> InBits(m, p) != [] }

  /** What the calls keep of the events and of the memory of them. */
  ghost predicate Core(c: Params, s: Cursor) {
    && Fixed(c)
    && Stream(U(c), s.events)
    && s.labels == Names(s.events)
    && Levels(c, s)
    && PortsKnown(c.m, s.vals)
    && Memory(c.m, s)
  }

  /** Where time stands relative to the last event, in and out of a simultaneous block. */
  ghost predicate Tail(c: Params, s: Cursor)
    requires Fixed(c)
  {
    && c.settle <= s.t && 0 <= s.lastChange <= s.t && Reached(s.events, s.t)
    && (!s.open ==> Companions(s.events)
                    && (FreshTime(s.events, s.t, c.gap)
                        || (Joinable(U(c), s.events) && s.events[|s.events| - 1].t == s.lastChange)))
    && (s.open && s.group == 0 ==> Companions(s.events) && FreshTime(s.events, s.t, c.gap))
    && (s.open && s.group > 0 ==> s.lastChange == s.t && GroupAt(s.events, s.group, s.t) && Companions(s.events[..|s.events| - s.group]))
  }

  ghost predicate Inv(c: Params, s: Cursor) { Core(c, s) && Tail(c, s) }

  lemma StartInv(c: Params, gap: int)
    requires WellFormed(c.m) && TimesOk(c.m, c.settle, c.period, gap, c.sep) && c.gap == Max(gap, MinGap(c.sep, c.m))
    ensures Inv(c, Start(c))
  {
    forall p
      ensures p in Zeros(InPorts(c.m)) <==> InBits(c.m, p) != []
    {
      PortBitsIn(c.m.bits, In, p, Plain);
      if InBits(c.m, p) != [] { assert InBits(c.m, p)[0] in InBits(c.m, p); }
    }
  }

  // ---- one event -------------------------------------------------------------------------------------

  lemma FreshFits(u: Setup, es: seq<Event>, t: int, e: Event)
    requires SetupOk(u) && Stream(u, es) && FreshTime(es, t, u.gap) && t >= u.settle
    requires e.t == NewTime(es, t, u.gap)
    ensures e.t >= t && (es != [] ==> e.t > es[|es| - 1].t)
    ensures forall a | a in es :: PairOk(u, a, e)
  {
    NewTimeFits(u, es, e);
  }

  lemma CompanionsKept(es: seq<Event>, e: Event)
    requires Companions(es) && !e.sim
    ensures Companions(es + [e])
  {
    var all := es + [e];
    forall i | 0 <= i < |all| && all[i].sim
      ensures exists j :: 0 <= j < |all| && j != i && all[j].t == all[i].t
    {
      var j :| 0 <= j < |es| && j != i && es[j].t == es[i].t;
      assert all[j].t == all[i].t;
    }
  }

  lemma SameLevels(c: Params, s: Cursor, e: Event)
    requires Levels(c, s) && !e.Edge?
    ensures Levels(c, s.(events := s.events + [e]))
  {
    forall clk | StepClock(U(c), clk)
      ensures LevelAfter(s.events + [e], clk, false) == LevelAfter(s.events, clk, false)
    {
      LevelJoin(s.events, e, clk, false);
    }
  }

  lemma SameLevelsAs(c: Params, a: Cursor, b: Cursor)
    requires Levels(c, a) && a.events == b.events && a.level == b.level
    ensures Levels(c, b)
  {}

  /** What the place of the next change must be like: in a block, at a time of its own, beside other
      data sets, or in initialisation. */
  ghost predicate Place(c: Params, s: Cursor)
    requires Fixed(c)
  {
    || (s.open && Tail(c, s))
    || (!s.open && Companions(s.events) && s.t >= c.settle && FreshTime(s.events, s.t, c.gap))
    || (!s.open && Companions(s.events) && s.t >= c.settle && Joinable(U(c), s.events) && Reached(s.events, s.t))
    || (!s.open && Companions(s.events) && s.t == 0 && forall e | e in s.events :: Initial(e))
  }

  predicate Joining(c: Params, s: Cursor) {
    s.events != [] && s.events[|s.events| - 1].t == NewTime(s.events, s.t, c.gap)
  }

  /** The next event at the place fits the stream when it does not overlap what it joins. */
  lemma PlaceFits(c: Params, s: Cursor, e: Event)
    requires Core(c, s) && Place(c, s) && e.t == NewTime(s.events, s.t, c.gap) && e.sim == s.open && Change(e)
    requires !s.open && Joining(c, s) ==> e.Set? && (s.t > 0 ==> !AsyncSet(c.m, e))
    requires e.Set? ==> forall a | a in s.events && a.Set? && a.t == e.t :: !Overlap(a, e)
    requires !s.open && s.t == 0 ==> e.Set?
    ensures forall a | a in s.events :: PairOk(U(c), a, e)
    ensures s.t <= e.t && (s.t > 0 ==> e.t >= c.settle) && (s.t == 0 ==> e.t == 0 && !s.open) && Reached(s.events, e.t)
  {
    hide Stream, Companions, AllPairs, WellFormed;
    var u, es := U(c), s.events;
    assert es != [] ==> es[|es| - 1] in es;
    if s.open {
      if s.group == 0 { FreshFits(u, es, s.t, e); } else { GroupFits(u, es, s.group, e); }
    } else if s.t == 0 {
      InitialFits(u, es, e);
    } else if FreshTime(es, s.t, c.gap) {
      FreshFits(u, es, s.t, e);
    } else if e.t == es[|es| - 1].t {
      JoinFits(u, es, e);
    } else {
      NewTimeFits(u, es, e);
    }
  }

  /** The open group grows by one. */
  lemma GroupGrows(c: Params, s: Cursor, e: Event)
    requires Core(c, s) && Tail(c, s) && s.open
    requires e.sim && Change(e) && e.t == NewTime(s.events, s.t, c.gap)
    ensures e.t >= s.t && GroupAt(s.events + [e], s.group + 1, e.t)
    ensures Companions((s.events + [e])[..|s.events| - s.group])
  {
    hide Companions;
    var es, all := s.events, s.events + [e];
    assert all[..|es| - s.group] == es[..|es| - s.group];
    if s.group == 0 {
      assert es[..|es|] == es;
      forall i | 0 <= i < |es|
        ensures es[i].t < e.t
      {
        assert i < |es| - 1 ==> PairOk(U(c), es[i], es[|es| - 1]);
      }
    }
  }

  /** Where the tail stands after a change at the place. */
  ghost predicate Landed(c: Params, s: Cursor, after: Cursor)
    requires Fixed(c)
  {
    && s.t <= after.t && Reached(after.events, after.t) && after.events != [] && after.events[|after.events| - 1].t == after.t
    && after.open == s.open
    && (s.t >= c.settle ==> after.t >= c.settle)
    && (s.t == 0 && !s.open ==> after.t == 0)
    && (s.open ==> after.group == s.group + 1 && GroupAt(after.events, after.group, after.t)
                   && Companions(after.events[..|after.events| - after.group]))
    && (!s.open ==> Companions(after.events))
  }

  /** A change at a place that it fits keeps the stream. */
  lemma EmitKeeps(c: Params, s: Cursor, op: Event)
    requires Core(c, s) && Place(c, s) && Change(op)
    requires Emitted(U(c), Stamp(op, NewTime(s.events, s.t, c.gap), s.open))
    requires op.Edge? ==> op.rise != LevelAfter(s.events, op.clk, false)
    requires var e := Stamp(op, NewTime(s.events, s.t, c.gap), s.open);
             && (!s.open && Joining(c, s) ==> e.Set? && (s.t > 0 ==> !AsyncSet(c.m, e)))
             && (e.Set? ==> forall a | a in s.events && a.Set? && a.t == e.t :: !Overlap(a, e))
             && (!s.open && s.t == 0 ==> e.Set?)
    ensures var r := Emit(c, s, op);
            && Stream(U(c), r.events) && Names(r.events) == Names(s.events) && Landed(c, s, r)
  {
    hide Stream, Companions, WellFormed, AsyncSet, PortsKnown, Memory, Levels, Emitted, Joining, Place, Landed, GroupAt, NewTime;
    var e := Stamp(op, NewTime(s.events, s.t, c.gap), s.open);
    PlaceFits(c, s, e);
    AppendStream(U(c), s.events, e);
    EmitLands(c, s, op);
  }

  lemma EmitLands(c: Params, s: Cursor, op: Event)
    requires Core(c, s) && Place(c, s) && Change(op) && Reached(s.events, Stamp(op, NewTime(s.events, s.t, c.gap), s.open).t)
    requires s.t == 0 ==> NewTime(s.events, s.t, c.gap) == 0
    ensures Landed(c, s, Emit(c, s, op))
  {
    hide Stream, Companions, WellFormed, AsyncSet, PortsKnown, Memory, Levels, Joinable, GroupAt, Joining;
    var e := Stamp(op, NewTime(s.events, s.t, c.gap), s.open);
    if s.open { GroupGrows(c, s, e); } else { CompanionsKept(s.events, e); }
    assert (s.events + [e])[|s.events|] == e;
  }

  /** Nothing already set at the time of the new set overlaps it. */
  lemma NoOverlapNow(c: Params, s: Cursor, port: string, e: Event)
    requires SetupOk(U(c)) && Memory(c.m, s) && Reached(s.events, s.t) && s.t >= 0
    requires SetOf(c.m, port, e) && e.t == NewTime(s.events, s.t, c.gap) && port !in Taken(c, s)
    ensures forall a | a in s.events && a.Set? && a.t == e.t :: !Overlap(a, e)
  {
    forall a | a in s.events && a.Set? && a.t == e.t
      ensures !Overlap(a, e)
    {
      var p :| p in s.setPorts && SetOf(c.m, p, a);
      PortsDisjoint(c.m, p, port, a, e);
    }
  }

  lemma MemoryGrows(c: Params, s: Cursor, a: Assign)
    requires SetupOk(U(c)) && Memory(c.m, s) && Reached(s.events, s.t) && PutOk(c, s, a) && s.t >= 0
    requires var e := Put(c, s, a).events[|s.events|]; SetOf(c.m, a.port, e)
    ensures Memory(c.m, Put(c, s, a))
  {
    hide WellFormed, SetOf;
    var r := Put(c, s, a);
    forall x | x in r.events && x.Set?
      ensures x.t <= r.setAt && (x.t == r.setAt ==> exists p :: p in r.setPorts && SetOf(c.m, p, x))
    {
      if x in s.events {
        if x.t >= r.setAt {
          var p :| p in s.setPorts && SetOf(c.m, p, x);
          assert p in r.setPorts;
        }
      } else {
        assert a.port in r.setPorts;
      }
    }
  }

  /** Async and gate ports are put one bit at a time, and not beside other sets. */
  predicate PutFit(c: Params, s: Cursor, port: string) {
    !s.open && s.t > 0 && AsyncPort(c.m, port) ==> |InBits(c.m, port)| <= 1 && FreshTime(s.events, s.t, c.gap)
  }

  /** The event of `_put` meets what `EmitKeeps` asks. */
  lemma PutFits(c: Params, s: Cursor, a: Assign)
    requires Core(c, s) && Place(c, s) && PutOk(c, s, a) && PutFit(c, s, a.port)
    ensures var e := Stamp(PutOp(c, s, a), NewTime(s.events, s.t, c.gap), s.open);
            && SetOf(c.m, a.port, e) && Emitted(U(c), e)
            && (AsyncSet(c.m, e) <==> AsyncPort(c.m, a.port))
            && (forall x | x in s.events && x.Set? && x.t == e.t :: !Overlap(x, e))
    ensures Reached(s.events, s.t) && s.t >= 0
  {
    var e := Stamp(PutOp(c, s, a), NewTime(s.events, s.t, c.gap), s.open);
    assert SetOf(c.m, a.port, e);
    SetOfPort(c.m, a.port, e);
    PlaceReached(c, s);
    NoOverlapNow(c, s, a.port, e);
    PutEmitted(c, s, a, e);
  }

  lemma FreshNotJoining(c: Params, s: Cursor)
    requires Core(c, s) && s.t >= 0
    ensures Joining(c, s) && FreshTime(s.events, s.t, c.gap) ==> s.t == 0
  {}

  /** `_put` keeps the core, whatever the place it is called from. */
  lemma PutKeeps(c: Params, s: Cursor, a: Assign)
    requires Core(c, s) && Place(c, s) && PutOk(c, s, a) && PutFit(c, s, a.port)
    ensures Core(c, Put(c, s, a)) && Landed(c, s, Put(c, s, a))
    ensures !s.open && s.t > 0 && !AsyncPort(c.m, a.port) ==> Joinable(U(c), Put(c, s, a).events)
  {
    hide WellFormed, SetOf, AsyncPort, AsyncSet, Emitted, Stream, Companions, GroupAt, Memory, Place, Joining, FreshTime;
    PutFits(c, s, a);
    var op := PutOp(c, s, a);
    var e := Stamp(op, NewTime(s.events, s.t, c.gap), s.open);
    FreshNotJoining(c, s);
    EmitKeeps(c, s, op);
    MemoryGrows(c, s, a);
    SameLevels(c, s, e);
  }

  lemma PlaceReached(c: Params, s: Cursor)
    requires Core(c, s) && Place(c, s)
    ensures Reached(s.events, s.t) && (s.t == 0 || s.t >= c.settle)
    ensures s.t == 0 ==> !s.open && NewTime(s.events, s.t, c.gap) == 0
  {
    assert s.events != [] ==> s.events[|s.events| - 1] in s.events;
  }

  lemma PutEmitted(c: Params, s: Cursor, a: Assign, e: Event)
    requires Core(c, s) && Place(c, s) && PutOk(c, s, a) && SetOf(c.m, a.port, e)
    requires e.t == NewTime(s.events, s.t, c.gap) && e.sim == s.open
    requires !s.open && s.t > 0 ==> AsyncPort(c.m, a.port) ==> |InBits(c.m, a.port)| <= 1
    ensures Emitted(U(c), e)
  {
    SetOfPort(c.m, a.port, e);
    PlaceReached(c, s);
  }

  // ---- every call keeps the invariant ----------------------------------------------------------------

  /** Time may move on between calls. */
  lemma LaterInv(c: Params, s: Cursor, t: int)
    requires Inv(c, s) && !s.open && t >= s.t
    ensures Inv(c, s.(t := t))
    ensures t >= s.lastChange + c.gap ==> FreshTime(s.events, t, c.gap)
  {
    hide Stream, Companions, AllPairs, WellFormed, PortsKnown;
  }

  /** From a landed core: back to the invariant, after the time `t` from then on. */
  lemma LandedInv(c: Params, s: Cursor, after: Cursor, t: int)
    requires Inv(c, s) && Core(c, after) && Landed(c, s, after) && after.lastChange == after.t
    requires if s.open then t == after.t else t >= after.t + c.gap
    ensures Inv(c, after.(t := t))
  {
    hide Stream, Companions, WellFormed, PortsKnown, Joinable, GroupAt;
  }

  lemma PutKeepsInv(c: Params, s: Cursor, a: Assign)
    requires Inv(c, s) && PutOk(c, s, a) && (s.open || !AsyncPort(c.m, a.port))
    ensures Inv(c, Put(c, s, a)) && Put(c, s, a).open == s.open
  {
    hide WellFormed, SetOf, AsyncPort, Emitted, Stream, Companions, Memory, GroupAt, Joinable, PortsKnown, Levels, BitsOf;
    PutKeeps(c, s, a);
  }

  lemma {:induction false} PutAllKeeps(c: Params, s: Cursor, args: seq<Assign>)
    requires Inv(c, s) && forall a | a in args :: Settable(c, s, a)
    requires PutAll(c, s, args, true).Some?
    ensures Inv(c, PutAll(c, s, args, true).value)
    decreases args
  {
    hide Inv, PutOk;
    if args != [] {
      assert Settable(c, s, args[0]);
      if Holds(s, args[0]) {
        PutAllKeeps(c, s, args[1..]);
      } else {
        PutKeepsInv(c, s, args[0]);
        forall a | a in args[1..]
          ensures Settable(c, Put(c, s, args[0]), a)
        {
          assert Settable(c, s, a);
        }
        PutAllKeeps(c, Put(c, s, args[0]), args[1..]);
      }
    }
  }

  ghost predicate Initialising(c: Params, s: Cursor) {
    Core(c, s) && !s.open && s.t == 0 && Companions(s.events) && forall e | e in s.events :: Initial(e)
  }

  lemma {:induction false} InitKeeps(c: Params, s: Cursor, args: seq<Assign>)
    requires Initialising(c, s) && PutAll(c, s, args, false).Some?
    ensures Initialising(c, PutAll(c, s, args, false).value)
    decreases args
  {
    hide WellFormed, SetOf, AsyncPort, Emitted, Stream, Companions, Memory, GroupAt, Joinable, PortsKnown, Levels, BitsOf, Core;
    if args != [] {
      assert Fixed(c) && c.settle > 0 by { CoreFixed(c, s); }
      PutKeeps(c, s, args[0]);
      InitKeeps(c, Put(c, s, args[0]), args[1..]);
    }
  }

  lemma CoreFixed(c: Params, s: Cursor)
    requires Core(c, s)
    ensures Fixed(c) && c.settle > 0
  {}

  lemma InitialStart(c: Params, s: Cursor)
    requires Inv(c, s) && !s.open && forall e | e in s.events :: e.t <= 0
    ensures Initialising(c, s.(t := 0))
  {
    forall e | e in s.events
      ensures Initial(e)
    {
      assert Emitted(U(c), e);
    }
    hide Stream, WellFormed, SetOf, PortsKnown;
  }

  lemma InitialEnd(c: Params, s: Cursor, t: int)
    requires Initialising(c, s) && t >= c.settle
    ensures Inv(c, s.(t := t, lastChange := 0))
  {
    hide Stream, WellFormed, SetOf, PortsKnown, Companions;
    var r := s.(t := t, lastChange := 0);
    assert s.events != [] ==> s.events[|s.events| - 1] in s.events;
    assert Core(c, r);
    assert Tail(c, r);
  }

  lemma InitialisedKeeps(c: Params, s: Cursor, args: seq<Assign>)
    requires Inv(c, s) && Initialised(c, s, args).Some?
    ensures Inv(c, Initialised(c, s, args).value)
  {
    InitialStart(c, s);
    assert s.t >= c.settle;
    hide Initialising, Inv, PutAll;
    InitKeeps(c, s.(t := 0), args);
    InitialEnd(c, PutAll(c, s.(t := 0), args, false).value, s.t);
  }

  lemma SetKeeps(c: Params, s: Cursor, args: seq<Assign>)
    requires Inv(c, s) && SetDone(c, s, args).Some?
    ensures Inv(c, SetDone(c, s, args).value)
  {
    hide Inv, PutOk;
    var at := s.(t := SetTime(c, s, args));
    assert at == s || (!s.open && at.t >= s.t) by { InvGap(c, s); }
    if !s.open { LaterInv(c, s, at.t); }
    assert forall a | a in args :: Settable(c, s, a);
    forall a | a in args
      ensures Settable(c, at, a)
    {
      assert Settable(c, s, a);
    }
    PutAllKeeps(c, at, args);
  }

  lemma InvGap(c: Params, s: Cursor)
    requires Inv(c, s)
    ensures Fixed(c) && MIN_SEP <= c.sep <= c.gap && c.settle > 0
  {}

  lemma AsyncKeeps(c: Params, s: Cursor, a: Assign)
    requires Inv(c, s) && AsyncDone(c, s, a).Some?
    ensures Inv(c, AsyncDone(c, s, a).value)
  {
    InvGap(c, s);
    AlonePlace(c, s, AloneTime(c, s, c.sep));
    hide WellFormed, SetOf, AsyncPort, Emitted, Stream, Companions, Memory, GroupAt, Joinable, PortsKnown, Levels, BitsOf;
    hide Inv, Core, Tail, Place;
    var before := s.(t := AloneTime(c, s, c.sep));
    PutKeeps(c, before, a);
    var r := Put(c, before, a);
    LandedInv(c, before, r, Apart(c, r).t);
  }

  /** A change that comes alone, or in a block, finds its place. */
  lemma AlonePlace(c: Params, s: Cursor, t: int)
    requires Inv(c, s) && if s.open then t == s.t else t >= Max(s.t, s.lastChange + c.gap)
    ensures var at := s.(t := t);
            && Inv(c, at) && Place(c, at) && at.t > 0
            && (!s.open ==> FreshTime(at.events, at.t, c.gap) && !Joining(c, at))
  {
    hide WellFormed, Stream, Companions, Memory, GroupAt, Joinable, PortsKnown, Levels;
    if !s.open {
      LaterInv(c, s, t);
      FreshNotJoining(c, s.(t := t));
    }
  }

  /** An event that is not a set does not disturb the memory of sets. */
  lemma MemoryKept(c: Params, s: Cursor, e: Event, after: Cursor)
    requires Memory(c.m, s) && !e.Set? && Reached(s.events, e.t)
    requires after.events == s.events + [e] && after.setAt == s.setAt && after.setPorts == s.setPorts
    ensures Memory(c.m, after)
  {}

  lemma GlblCore(c: Params, s: Cursor, op: Event)
    requires Inv(c, s) && Place(c, s) && s.t > 0 && (!s.open ==> !Joining(c, s)) && op.Glbl?
    ensures var after := Emit(c, s, op);
            var r := after.(lastChange := after.t);
            Core(c, r) && Landed(c, s, r)
  {
    var e := Stamp(op, NewTime(s.events, s.t, c.gap), s.open);
    PlaceFits(c, s, e);
    hide WellFormed, Stream, Companions, Memory, GroupAt, Joinable, PortsKnown, FreshTime, Joining, NewTime, Tail, Place, Landed, Levels;
    EmitKeeps(c, s, op);
    var after := Emit(c, s, op);
    var r := after.(lastChange := after.t);
    MemoryKept(c, s, e, r);
    SameLevels(c, s, e);
    SameLevelsAs(c, s.(events := s.events + [e]), r);
    SameLanding(c, s, after, r);
  }

  lemma GlblKeeps(c: Params, s: Cursor, sig: Signal, level: bool)
    requires Inv(c, s)
    ensures Inv(c, GlblDone(c, s, sig, level))
  {
    hide WellFormed, Inv, Core, Tail, Place, Landed, FreshTime, Joining, NewTime;
    InvGap(c, s);
    var before := s.(t := AloneTime(c, s, c.sep));
    AlonePlace(c, s, before.t);
    GlblCore(c, before, Glbl(0, false, sig, level));
    var after := Emit(c, before, Glbl(0, false, sig, level));
    var r := after.(lastChange := after.t);
    LandedInv(c, before, r, Apart(c, r).t);
  }

  lemma SameLanding(c: Params, s: Cursor, a: Cursor, b: Cursor)
    requires Fixed(c) && Landed(c, s, a)
    requires b.t == a.t && b.events == a.events && b.open == a.open && b.group == a.group
    ensures Landed(c, s, b)
  {}

  lemma ClockBit(m: DutMap, p: string)
    requires WellFormed(m) && |PortBits(m.bits, Clk, p, Plain)| == 1
    ensures PortBits(m.bits, Clk, p, Plain)[0].bit < m.nclk
  {
    var b := PortBits(m.bits, Clk, p, Plain)[0];
    PortBitsIn(m.bits, Clk, p, Plain);
    assert b in Of(m.bits, Clk);
    var k :| 0 <= k < |Of(m.bits, Clk)| && Of(m.bits, Clk)[k] == b;
  }

  lemma EdgeLevels(c: Params, s: Cursor, e: Event, after: Cursor)
    requires Levels(c, s) && e.Edge? && after.events == s.events + [e] && after.level == s.level[e.clk := e.rise]
    ensures Levels(c, after)
  {
    forall clk | StepClock(U(c), clk)
      ensures LevelAfter(after.events, clk, false) == if clk == e.clk then e.rise else LevelAfter(s.events, clk, false)
    {
      LevelJoin(s.events, e, clk, false);
    }
  }

  lemma EdgeKeeps(c: Params, s: Cursor, port: string, rising: bool)
    requires Inv(c, s) && EdgeDone(c, s, port, rising).Some?
    ensures Inv(c, EdgeDone(c, s, port, rising).value)
  {
    hide WellFormed, Inv, Core, Tail, Place, Landed, FreshTime, Joining, NewTime;
    InvGap(c, s);
    ClockBit(c.m, port);
    var before := s.(t := if s.open then s.t else Max(s.t, s.lastChange + c.gap));
    AlonePlace(c, s, before.t);
    var op := Edge(0, false, ClockOf(c, port).value, rising);
    var e := Stamp(op, NewTime(before.events, before.t, c.gap), before.open);
    EdgeCore(c, before, op, e);
    var after := Emit(c, before, op);
    var r := after.(level := s.level[op.clk := rising], lastEdge := Some(after.t), lastChange := after.t);
    LandedInv(c, before, r, if s.open then r.t else r.t + c.gap);
  }

  lemma EdgeCore(c: Params, s: Cursor, op: Event, e: Event)
    requires Inv(c, s) && Place(c, s) && s.t > 0 && (!s.open ==> !Joining(c, s))
    requires op.Edge? && StepClock(U(c), op.clk) && s.level[op.clk] != op.rise && e == Stamp(op, NewTime(s.events, s.t, c.gap), s.open)
    ensures var after := Emit(c, s, op);
            var r := after.(level := s.level[op.clk := op.rise], lastEdge := Some(after.t), lastChange := after.t);
            Core(c, r) && Landed(c, s, r)
  {
    PlaceFits(c, s, e);
    hide WellFormed, Stream, Companions, Memory, GroupAt, Joinable, PortsKnown, FreshTime, Joining, NewTime, Tail, Place, Landed;
    EmitKeeps(c, s, op);
    var after := Emit(c, s, op);
    var r := after.(level := s.level[op.clk := op.rise], lastEdge := Some(after.t), lastChange := after.t);
    MemoryKept(c, s, e, r);
    EdgeLevels(c, s, e, r);
    SameLanding(c, s, after, r);
  }

  lemma AutoLabel(n: nat)
    ensures IsLabel("S" + Decimal.Dec(n))
  {
    var s := "S" + Decimal.Dec(n);
    forall i | 0 <= i < |s|
      ensures LabelChar(s[i])
    {
      assert i > 0 ==> Decimal.IsDigit(Decimal.Dec(n)[i - 1]);
    }
  }

  lemma SampleKeeps(c: Params, s: Cursor, name: Option<string>)
    requires Inv(c, s) && SampleDone(c, s, name).Some?
    ensures Inv(c, SampleDone(c, s, name).value)
  {
    hide WellFormed, PortsKnown, Joinable, IsLabel, Memory, Levels, Companions, GroupAt, AllPairs;
    var before := s.(t := Max(s.t, s.lastChange + c.gap));
    LaterInv(c, s, before.t);
    var e := Sample(NewTime(before.events, before.t, c.gap), false, LabelOf(s, name));
    FreshFits(U(c), before.events, before.t, e);
    AppendStream(U(c), before.events, e);
    CompanionsKept(before.events, e);
    SameLevels(c, before, e);
    var r := SampleDone(c, s, name).value;
    MemoryKept(c, before, e, r);
    SameLevelsAs(c, before.(events := before.events + [e]), r);
    hide Stream, Names;
    assert Core(c, r);
    assert Tail(c, r);
  }

  lemma HalfKeeps(c: Params, s: Cursor, port: string, rising: bool, sample: bool)
    requires Inv(c, s) && !s.open && HalfCycle(c, s, port, rising, sample).Some?
    ensures Inv(c, HalfCycle(c, s, port, rising, sample).value) && !HalfCycle(c, s, port, rising, sample).value.open
  {
    hide Inv;
    EdgeKeeps(c, s, port, rising);
    if sample { SampleKeeps(c, EdgeDone(c, s, port, rising).value, None); }
  }

  lemma OneCycleKeeps(c: Params, s: Cursor, port: string, sample: bool)
    requires Inv(c, s) && !s.open && OneCycle(c, s, port, sample).Some?
    ensures Inv(c, OneCycle(c, s, port, sample).value) && !OneCycle(c, s, port, sample).value.open
  {
    hide Inv, HalfCycle;
    var start := Max(s.t, s.lastChange + c.gap);
    LaterInv(c, s, start);
    HalfKeeps(c, s.(t := start), port, true, sample);
    var high := HalfCycle(c, s.(t := start), port, true, sample).value;
    LaterInv(c, high, Max(high.t, start + c.period / 2));
    HalfKeeps(c, high.(t := Max(high.t, start + c.period / 2)), port, false, sample);
    var low := HalfCycle(c, high.(t := Max(high.t, start + c.period / 2)), port, false, sample).value;
    LaterInv(c, low, Max(low.t, start + c.period));
  }

  lemma {:induction false} CyclesKeep(c: Params, s: Cursor, port: string, n: nat, sample: bool)
    requires Inv(c, s) && !s.open && Cycles(c, s, port, n, sample).Some?
    ensures Inv(c, Cycles(c, s, port, n, sample).value)
    decreases n
  {
    hide Inv, OneCycle;
    if n > 0 {
      OneCycleKeeps(c, s, port, sample);
      CyclesKeep(c, OneCycle(c, s, port, sample).value, port, n - 1, sample);
    }
  }

  lemma OpenedKeeps(c: Params, s: Cursor)
    requires Inv(c, s) && Opened(c, s).Some?
    ensures Inv(c, Opened(c, s).value)
  {
    InvGap(c, s);
    hide Stream, WellFormed, Companions, PortsKnown, Joinable, Core, Fixed, FreshTime, Reached, GroupAt;
    LaterInv(c, s, Opened(c, s).value.t);
    CoreSame(c, s, Opened(c, s).value);
  }

  /** The core does not depend on the time. */
  lemma CoreSame(c: Params, s: Cursor, r: Cursor)
    requires Core(c, s) && r.events == s.events && r.labels == s.labels && r.level == s.level && r.vals == s.vals
    requires r.setAt == s.setAt && r.setPorts == s.setPorts
    ensures Core(c, r)
  {
    hide Stream, Fixed, PortsKnown;
  }

  /** A block of two or more events leaves every marked event in company. */
  lemma BlockCompanions(es: seq<Event>, group: nat, t: int)
    requires group >= 2 && GroupAt(es, group, t) && Companions(es[..|es| - group])
    ensures Companions(es)
  {
    var k := |es| - group;
    forall i | 0 <= i < |es| && es[i].sim
      ensures exists j :: 0 <= j < |es| && j != i && es[j].t == es[i].t
    {
      if i < k {
        assert es[..k][i].sim;
        var j :| 0 <= j < k && j != i && es[..k][j].t == es[..k][i].t;
        assert es[j].t == es[i].t;
      } else {
        var j := if i == k then k + 1 else k;
        assert es[j].t == es[i].t;
      }
    }
  }

  lemma GroupLast(es: seq<Event>, n: nat, t: int)
    requires n > 0 && GroupAt(es, n, t)
    ensures es != [] && es[|es| - 1].t == t
  {}

  lemma ClosedKeeps(c: Params, s: Cursor)
    requires Inv(c, s) && Closed(c, s).Some?
    ensures Inv(c, Closed(c, s).value)
  {
    hide Stream, WellFormed, Companions, PortsKnown, Joinable, GroupAt, Memory, Levels, Names;
    var r := Closed(c, s).value;
    assert Memory(c.m, r) && Levels(c, r) by { MemoryOf(c, s, r); SameLevelsAs(c, s, r); }
    BlockCompanions(s.events, s.group, s.t);
    GroupLast(s.events, s.group, s.t);
  }

  lemma MemoryOf(c: Params, a: Cursor, b: Cursor)
    requires Memory(c.m, a) && a.events == b.events && a.setAt == b.setAt && a.setPorts == b.setPorts
    ensures Memory(c.m, b)
  {}

  lemma AfterKeeps(c: Params, s: Cursor, call: Call)
    requires Inv(c, s) && After(c, s, call).Some?
    ensures Inv(c, After(c, s, call).value)
  {
    hide Inv, Initialised, SetDone, AsyncDone, GlblDone, EdgeDone, SampleDone, Cycles, Opened, Closed;
    match call
    case CallInit(args) => InitialisedKeeps(c, s, args);
    case CallSet(args) => SetKeeps(c, s, args);
    case CallAsync(a) => AsyncKeeps(c, s, a);
    case CallGlbl(sig, level) => GlblKeeps(c, s, sig, level);
    case CallEdge(port, rising) => EdgeKeeps(c, s, port, rising);
    case CallSample(name) => SampleKeeps(c, s, name);
    case CallCycle(port, n, sample) =>
      CyclesKeep(c, s, (if port.Some? then port else OnlyClock(c.m)).value, if n < 0 then 0 else n, sample);
    case CallWait(ps) => LaterInv(c, s, s.t + ps);
    case CallOpen => OpenedKeeps(c, s);
    case CallClose => ClosedKeeps(c, s);
  }

  /** Whatever calls succeed, in whatever order, the invariant holds after them. */
  lemma {:induction false} RunKeeps(c: Params, s: Cursor, calls: seq<Call>)
    requires Inv(c, s) && Run(c, s, calls).Some?
    ensures Inv(c, Run(c, s, calls).value)
    decreases calls
  {
    hide Inv, After;
    if calls != [] {
      AfterKeeps(c, s, calls[0]);
      RunKeeps(c, After(c, s, calls[0]).value, calls[1..]);
    }
  }

  // ---- the finished stimulus -------------------------------------------------------------------------

  /** The parameters the constructor accepts, `gap` being the one asked for. */
  ghost predicate Constructed(c: Params, gap: int) {
    WellFormed(c.m) && TimesOk(c.m, c.settle, c.period, gap, c.sep) && c.gap == Max(gap, MinGap(c.sep, c.m))
  }

  lemma FinishedBuilt(c: Params, s: Cursor)
    requires Inv(c, s) && !s.open
    ensures Built(U(c), Finished(c, s), s.events, c.period, c.sep, EndTime(c, s))
  {
    LaterInv(c, s, Max(s.t, s.lastChange + c.gap));
    InvGap(c, s);
    hide Stream, WellFormed, Companions, PortsKnown, Joinable;
    var e := End(EndTime(c, s), false);
    FreshFits(U(c), s.events, Max(s.t, s.lastChange + c.gap), e);
  }

  /** Valid by construction: the stimulus of any run of calls that succeed has no error, if and only
      if it meets the guard: a seed that is no negative number, attributes named illegal exactly when
      a rejection is expected, a sample unless one is, and every event after initialisation clear of
      the release of GSR. */
  lemma ValidByConstruction(c: Params, gap: int, calls: seq<Call>)
    requires Constructed(c, gap) && Run(c, Start(c), calls).Some? && !Run(c, Start(c), calls).value.open
    ensures var v := Finished(c, Run(c, Start(c), calls).value); ErrorFree(v, c.m) <==> Guard(v)
  {
    var s := Run(c, Start(c), calls).value;
    StartInv(c, gap);
    RunKeeps(c, Start(c), calls);
    FinishedBuilt(c, s);
    hide Built, ErrorFree, Guard, Inv, Run;
    InvGap(c, s);
    BuiltErrorFree(U(c), Finished(c, s), s.events, c.period, c.sep, EndTime(c, s));
  }

  /** A settle time that leaves the separation after the release of GSR suffices for the last part. */
  lemma SettleSuffices(c: Params, gap: int, calls: seq<Call>)
    requires Constructed(c, gap) && Run(c, Start(c), calls).Some? && !Run(c, Start(c), calls).value.open
    requires c.settle >= ROC_WIDTH + c.sep
    ensures forall e | e in Finished(c, Run(c, Start(c), calls).value).events && !Initial(e) :: e.t >= ROC_WIDTH + c.sep
  {
    var s := Run(c, Start(c), calls).value;
    StartInv(c, gap);
    RunKeeps(c, Start(c), calls);
    FinishedBuilt(c, s);
    forall e | e in s.events
      ensures Emitted(U(c), e)
    {}
  }

  /** Hardware renderability, exactly: no pad or inout bit in the map, no change made in a block, no
      glbl change and no x or z. */
  lemma RenderableExactly(c: Params, gap: int, calls: seq<Call>)
    requires Constructed(c, gap) && Run(c, Start(c), calls).Some? && !Run(c, Start(c), calls).value.open
    ensures var s := Run(c, Start(c), calls).value;
            Renderable(Finished(c, s), c.m) <==>
            NoPads(c.m) && forall e | e in s.events :: !e.sim && !e.Glbl? && !HasX(e)
  {
    var s := Run(c, Start(c), calls).value;
    StartInv(c, gap);
    RunKeeps(c, Start(c), calls);
    FinishedBuilt(c, s);
    hide Built, Renderable, NoPads, HasX, Inv, Run;
    InvGap(c, s);
    BuiltRenderable(U(c), Finished(c, s), s.events, c.period, c.sep, EndTime(c, s));
  }

  // ---- what single calls do --------------------------------------------------------------------------

  /** A full cycle from time `at` hits exactly `at`, `at + gap`, `at + period / 2` and `at + period / 2 + gap`, and what
      follows comes at `at + period`. (In a state that calls can reach, `first` is `at`.) */
  lemma CycleExact(c: Params, s: Cursor, port: string)
    requires Fixed(c) && !s.open && OneCycle(c, s, port, true).Some?
    ensures var at, half, r := Max(s.t, s.lastChange + c.gap), c.period / 2, OneCycle(c, s, port, true).value;
            var first := NewTime(s.events, at, c.gap);
            && ClockOf(c, port).Some?
            && var clk := ClockOf(c, port).value;
            && at <= first < at + c.gap && (Inv(c, s) ==> first == at)
            && r.t == at + c.period && r.lastChange == at + half && r.n == s.n + 2
            && r.events == s.events + [Edge(first, false, clk, true), Sample(first + c.gap, false, "S" + Decimal.Dec(s.n)),
                                       Edge(at + half, false, clk, false),
                                       Sample(at + half + c.gap, false, "S" + Decimal.Dec(s.n + 1))]
  {
    hide WellFormed, IsLabel, Decimal.Dec, HalfCycle, ClockOf, Inv;
    var at, half := Max(s.t, s.lastChange + c.gap), c.period / 2;
    if Inv(c, s) { NeverPushed(c, s); }
    HalfExact(c, s.(t := at), port, true);
    var high := HalfCycle(c, s.(t := at), port, true, true).value;
    assert Max(high.t, at + half) == at + half;
    assert high.events[|high.events| - 1].t == NewTime(s.events, at, c.gap) + c.gap;
    HalfExact(c, high.(t := at + half), port, false);
    var low := HalfCycle(c, high.(t := at + half), port, false, true).value;
    assert Max(low.t, at + c.period) == at + c.period;
  }

  /** Between calls nothing is pushed on: the cycle starts a gap after the last change. */
  lemma NeverPushed(c: Params, s: Cursor)
    requires Inv(c, s) && !s.open
    ensures var at := Max(s.t, s.lastChange + c.gap); NewTime(s.events, at, c.gap) == at
  {
    hide Companions, AllPairs, WellFormed, PortsKnown, Memory, Levels;
    LaterInv(c, s, Max(s.t, s.lastChange + c.gap));
  }

  lemma HalfExact(c: Params, s: Cursor, port: string, rising: bool)
    requires c.gap > 0 && !s.open && HalfCycle(c, s, port, rising, true).Some?
    requires s.t >= s.lastChange + c.gap
    ensures var e, r := NewTime(s.events, s.t, c.gap), HalfCycle(c, s, port, rising, true).value;
            && ClockOf(c, port).Some?
            && s.t <= e < s.t + c.gap
            && r.t == e + 2 * c.gap && r.lastChange == e && !r.open && r.n == s.n + 1
            && r.events == s.events + [Edge(e, false, ClockOf(c, port).value, rising),
                                       Sample(e + c.gap, false, "S" + Decimal.Dec(s.n))]
  {
    hide IsLabel, Decimal.Dec, ClockOf;
    var e, at := EdgeDone(c, s, port, rising).value, NewTime(s.events, s.t, c.gap);
    var r := SampleDone(c, e, None).value;
    assert r.events == e.events + [Sample(at + c.gap, false, "S" + Decimal.Dec(s.n))];
  }

  function Assigned(vals: map<string, Value>, args: seq<Assign>): map<string, Value>
    decreases args
  {
    if args == [] then vals else Assigned(vals[args[0].port := args[0].value], args[1..])
  }

  /** A set is one atomic change: its ports take their values, no other does, and whatever is emitted
      is at one time. */
  lemma {:induction false} PutAllAtomic(c: Params, s: Cursor, args: seq<Assign>, skip: bool)
    requires c.gap > 0 && PutAll(c, s, args, skip).Some?
    ensures var r := PutAll(c, s, args, skip).value;
            && r.vals == Assigned(s.vals, args) && s.events <= r.events
            && (forall i :: |s.events| <= i < |r.events| ==> r.events[i].t == r.t && r.events[i].Set? && r.events[i].sim == s.open)
            && (r.events == s.events ==> r.t == s.t)
            && (r.events != s.events ==> r.t == NewTime(s.events, s.t, c.gap))
    decreases args
  {
    hide InBits, BitsOf, ClsOf;
    if args != [] {
      if skip && Holds(s, args[0]) {
        assert s.vals[args[0].port := args[0].value] == s.vals;
        PutAllAtomic(c, s, args[1..], skip);
      } else {
        PutAllAtomic(c, Put(c, s, args[0]), args[1..], skip);
      }
    }
  }

  /** What one port is set to: a number is emitted in binary, most significant bit first, in 0s and 1s over
      exactly the bits of the port. */
  lemma PutMeans(c: Params, s: Cursor, a: Assign)
    requires PutOk(c, s, a)
    ensures var r := Put(c, s, a);
            && r.events[..|s.events|] == s.events && |r.events| == |s.events| + 1
            && var e := r.events[|s.events|];
            && e.Set? && e.lsb == Lo(c.m, a.port) && e.msb == Hi(c.m, a.port) && |e.value| == |InBits(c.m, a.port)|
            && (a.value.Num? ==> NumberOf(e.value) == a.value.n && forall x | x in e.value :: x == L0 || x == L1)
            && (a.value.Text? ==> e.value == a.value.bits)
  {
    hide InBits, NumberOf, Binary;
    if a.value.Num? {
      BinaryReadsBack(a.value.n, |InBits(c.m, a.port)|);
      BinaryDefined(a.value.n, |InBits(c.m, a.port)|);
    }
  }

  /** `set` refused after the first `k` ports. */
  ghost predicate RefusedAfter(c: Params, s: Cursor, args: seq<Assign>, skip: bool, k: nat, left: Cursor)
    requires k < |args|
  {
    var r := PutAll(c, s, args[..k], skip);
    r.Some? && !PutOk(c, r.value, args[k]) && !(skip && Holds(r.value, args[k])) && left == PutLeft(c, r.value, args[k])
  }

  /** A refused `set` is not undone: the ports before the one refused keep what they were set to, and the
      refused one counts as set at that time. */
  lemma {:induction false} RefusedSet(c: Params, s: Cursor, args: seq<Assign>, skip: bool)
    requires PutAll(c, s, args, skip).None?
    ensures exists k: nat :: k < |args| && RefusedAfter(c, s, args, skip, k, PutAllLeft(c, s, args, skip))
    decreases args
  {
    hide PutOk, Put, PutLeft, Holds;
    var left := PutAllLeft(c, s, args, skip);
    if (skip && Holds(s, args[0])) || PutOk(c, s, args[0]) {
      var s' := if skip && Holds(s, args[0]) then s else Put(c, s, args[0]);
      RefusedSet(c, s', args[1..], skip);
      var k: nat :| k < |args[1..]| && RefusedAfter(c, s', args[1..], skip, k, left);
      assert args[..k + 1][1..] == args[1..][..k];
      assert RefusedAfter(c, s, args, skip, k + 1, left);
    } else {
      assert args[..0] == [];
      assert RefusedAfter(c, s, args, skip, 0, left);
    }
  }

  // ---- what the guard and the refusals are for -------------------------------------------------------

  /** A block of one event raises, and leaves its event behind: marked and without company. */
  lemma LoneMarkedEvent(c: Params, s: Cursor)
    requires Inv(c, s) && s.open && s.group == 1
    ensures Closed(c, s).None? && !ErrorFree(Finished(c, s.(open := false, group := 0)), c.m)
  {
    hide WellFormed, Stream;
    var es := s.events;
    var v := Finished(c, s.(open := false, group := 0));
    var k := |es| - 1;
    assert v.events[k] == es[k] && es[k].sim && es[k].t == s.t && Change(es[k]);
    forall j | 0 <= j < |v.events| && j != k
      ensures v.events[j].t != v.events[k].t
    {}
    assert !Cotimed(v.events);
  }
}
