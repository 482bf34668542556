/** The generic vector testbench (hdl/xut_vector_tb.sv) at 1 ps resolution: one process that executes
    the operation words, and one clock generator a clock. */
module Testbench {
  import opened Wrap
  import opened Stimulus
  import opened Words

  /** What the device under test and the sampler see: a changed input vector, an edge of a clock
      line, a write of a glbl signal, a sample. `Release` is the end of the start-up GSR, in
      predicted histories only. */
  datatype Obs =
    | Inputs(t: int, bits: seq<Logic>)
    | Clocked(t: int, clk: int, rise: bool)
    | Global(t: int, sig: Signal, level: bool)
    | Sampled(t: int, name: string)
    | Release

  /** A clock generator: `wait (en); high; #hi; low; #lo`, over and over. `due` is the end of its
      current delay, None while it waits. */
  datatype Gen = Gen(hi: int, lo: int, en: bool, due: Option<int>, high: bool)

  /** The registers: the input vector, its shadow, the stepped clock lines, the generators, and
      whether END was executed. */
  datatype Tb = Tb(vec: seq<Logic>, nxt: seq<Logic>, step: seq<bool>, gens: seq<Gen>, done: bool)

  function PowerUp(nin: nat, nclk: nat): Tb {
    var zeros := seq(nin, i => L0);
    Tb(zeros, zeros, seq(nclk, i => false), seq(nclk, i => Gen(0, 0, false, None, false)), false)
  }

  function FourState(val: int): Logic {
    var x := val % 4;
    if x == 0 then L0 else if x == 1 then L1 else if x == 2 then LX else LZ
  }

  function SigOf(idx: int): Signal { if idx == 0 then GSR else if idx == 1 then GTS else GRESTORE }

  // ---- the generators --------------------------------------------------------------------------------

  /** What a generator does at time `t`, and the level it changes to. */
  function Act(g: Gen, t: int): (Gen, Option<bool>) {
    if g.due == Some(t) && g.high then (g.(high := false, due := Some(t + g.lo)), Some(false))
    else if (g.due == None || g.due == Some(t)) && g.en then (g.(high := true, due := Some(t + g.hi)), Some(true))
    else (if g.due == Some(t) then g.(due := None) else g, None)
  }

  function ActSome(gens: seq<Gen>, t: int, who: set<int>): seq<Gen> {
    seq(|gens|, k requires 0 <= k < |gens| => if k in who then Act(gens[k], t).0 else gens[k])
  }

  function Below(n: nat): (r: set<int>)
    ensures forall k :: k in r <==> 0 <= k < n
  {
    if n == 0 then {} else Below(n - 1) + {n - 1}
  }

  function All(tb: Tb): set<int> { Below(|tb.gens|) }

  /** The edges that the generators in `who` make at `t`, from clock `k` on; a stepped line held high hides
      them. */
  function Flips(tb: Tb, k: nat, t: int, who: set<int>): seq<Obs>
    requires |tb.step| == |tb.gens|
    decreases |tb.gens| - k
  {
    if k >= |tb.gens| then [] else (if k in who then FlipOf(tb.step[k], tb.gens[k], k, t) else []) + Flips(tb, k + 1, t, who)
  }

  function FlipOf(step: bool, g: Gen, k: nat, t: int): seq<Obs> {
    var flip := Act(g, t).1;
    if flip.Some? && !step then [Clocked(t, k, flip.value)] else []
  }

  // ---- the operation process -------------------------------------------------------------------------

  function Commit(tb: Tb): Tb { tb.(vec := tb.nxt) }

  function CommitLog(tb: Tb, t: int): seq<Obs> { if tb.vec != tb.nxt then [Inputs(t, tb.nxt)] else [] }

  /** One operation; anything but a SET first commits the SETs of the time step. */
  function Exec(tb: Tb, w: Word): (r: Tb)
    requires |tb.step| == |tb.gens|
    ensures |r.step| == |r.gens| == |tb.gens| && |r.nxt| == |tb.nxt|
  {
    if w.op == SET then (if 0 <= w.idx < |tb.nxt| then tb.(nxt := tb.nxt[w.idx := FourState(w.val)]) else tb) else
    var c := Commit(tb);
    if w.op == END then c.(done := true)
    else if !(0 <= w.idx < |tb.step|) then c
    else if w.op == EDGE then c.(step := c.step[w.idx := w.val % 2 == 1])
    else if w.op == CLK_HI then c.(gens := c.gens[w.idx := c.gens[w.idx].(hi := w.val)])
    else if w.op == CLK_START then c.(gens := c.gens[w.idx := c.gens[w.idx].(lo := w.val, en := true)])
    else if w.op == CLK_STOP then c.(gens := c.gens[w.idx := c.gens[w.idx].(en := false)])
    else c
  }

  /** What an operation at `t` shows; a sample number reads back as its label. */
  function ExecLog(tb: Tb, w: Word, t: int, labels: seq<string>): seq<Obs>
    requires |tb.step| == |tb.gens|
  {
    if w.op == SET then [] else
    CommitLog(tb, t)
    + if w.op == EDGE then
        (if 0 <= w.idx < |tb.step| && tb.step[w.idx] != (w.val % 2 == 1) && !tb.gens[w.idx].high
         then [Clocked(t, w.idx, w.val % 2 == 1)] else [])
      else if w.op == GLBL then [Global(t, SigOf(w.idx), w.val % 2 == 1)]
      else if w.op == SAMPLE then [Sampled(t, if 0 <= w.idx < |labels| then labels[w.idx] else "")]
      else []
  }

  /** The operations of one time step: in order, up to one with a later time, before which the SETs
      are committed. */
  function Main(tb: Tb, ws: seq<Word>, t: int): Tb
    requires |tb.step| == |tb.gens|
    ensures |Main(tb, ws, t).step| == |Main(tb, ws, t).gens| == |tb.gens|
    decreases ws
  {
    if tb.done || ws == [] then tb
    else if ws[0].t > t then Commit(tb)
    else Main(Exec(tb, ws[0]), ws[1..], t)
  }

  function MainLog(tb: Tb, ws: seq<Word>, t: int, labels: seq<string>): seq<Obs>
    requires |tb.step| == |tb.gens|
    decreases ws
  {
    if tb.done || ws == [] then []
    else if ws[0].t > t then CommitLog(tb, t)
    else ExecLog(tb, ws[0], t, labels) + MainLog(Exec(tb, ws[0]), ws[1..], t, labels)
  }

  /** The words still to be executed after time `t`. */
  function Rest(ws: seq<Word>, t: int): seq<Word> {
    if ws == [] || ws[0].t > t then ws else Rest(ws[1..], t)
  }

  // ---- time ------------------------------------------------------------------------------------------

  /** Which generators the simulator resumes before the operation process, at every time. */
  type Order = int -> set<int>

  function Wake(tb: Tb, t: int, who: set<int>): Tb { tb.(gens := ActSome(tb.gens, t, who)) }

  /** One time step. The simulator may resume each generator before the operation process as well as after
      it; one that was just enabled starts after it. */
  function Tick(tb: Tb, ws: seq<Word>, t: int, order: Order): Tb
    requires |tb.step| == |tb.gens|
    ensures |Tick(tb, ws, t, order).step| == |Tick(tb, ws, t, order).gens| == |tb.gens|
  {
    Wake(Main(Wake(tb, t, order(t)), ws, t), t, All(tb))
  }

  function TickLog(tb: Tb, ws: seq<Word>, t: int, order: Order, labels: seq<string>): seq<Obs>
    requires |tb.step| == |tb.gens|
  {
    var start := Wake(tb, t, order(t));
    Flips(tb, 0, t, order(t)) + MainLog(start, ws, t, labels) + Flips(Main(start, ws, t), 0, t, All(tb))
  }

  /** The history from time `t` through `until`. */
  function History(tb: Tb, ws: seq<Word>, t: int, until: int, order: Order, labels: seq<string>): seq<Obs>
    requires |tb.step| == |tb.gens|
    decreases until + 1 - t
  {
    if t > until then []
    else TickLog(tb, ws, t, order, labels) + History(Tick(tb, ws, t, order), Rest(ws, t), t + 1, until, order, labels)
  }

  /** The history of an image of operation words, from power-up through `until`. */
  function Simulated(image: seq<int>, labels: seq<string>, nin: nat, nclk: nat, until: int, order: Order): seq<Obs> {
    History(PowerUp(nin, nclk), Decoded(image), 0, until, order, labels)
  }
}
