/** Golden replay (golden.py): the same stimulus interpreted directly, one time step after the other. */
module Golden {
  import opened Wrap
  import opened Sorting
  import opened Stimulus
  import opened Validation
  import opened Testbench

  /** The events but for clock starts and stops. */
  function Plain(es: seq<Event>): seq<Event> {
    if es == [] then []
    else (if es[0].ClockStart? || es[0].ClockStop? then [] else [es[0]]) + Plain(es[1..])
  }

  /** `expand_free_clocks`. */
  function Expand(v: Vec): seq<Event>
    requires ClocksOk(v)
  {
    Sort(Plain(v.events) + FreeEdges(v), Time)
  }

  /** How many events share the time of the first. */
  function GroupLen(es: seq<Event>): (n: nat)
    ensures n <= |es| && (es != [] ==> n > 0)
  {
    if es == [] then 0 else 1 + SameTime(es[1..], es[0].t)
  }

  function SameTime(es: seq<Event>, t: int): (n: nat)
    ensures n <= |es|
  {
    if es == [] || es[0].t != t then 0 else 1 + SameTime(es[1..], t)
  }

  /** The bits of one `set`, least significant first. */
  function PutBits(bits: seq<Logic>, lsb: int, value: seq<Logic>): (r: seq<Logic>)
    ensures |r| == |bits|
    decreases |value|
  {
    if value == [] then bits
    else PutBits(if 0 <= lsb < |bits| then bits[lsb := value[|value| - 1]] else bits, lsb + 1, value[..|value| - 1])
  }

  function ApplySets(bits: seq<Logic>, es: seq<Event>): (r: seq<Logic>)
    ensures |r| == |bits|
    decreases es
  {
    if es == [] then bits
    else ApplySets(if es[0].Set? then PutBits(bits, es[0].lsb, es[0].value) else bits, es[1..])
  }

  /** What one event other than a set shows. */
  function Shown(e: Event): seq<Obs> {
    match e
    case Edge(t, _, clk, rise) => [Clocked(t, clk, rise)]
    case Glbl(t, _, sig, level) => [Global(t, sig, level)]
    case Sample(t, _, name) => [Sampled(t, name)]
    case _ => []
  }

  function ShownAll(es: seq<Event>): seq<Obs> { if es == [] then [] else Shown(es[0]) + ShownAll(es[1..]) }

  /** One time step: the sets at once, then the other events in order. */
  function Step(group: seq<Event>, t: int, bits: seq<Logic>): seq<Obs> {
    var after := ApplySets(bits, group);
    (if after != bits then [Inputs(t, after)] else []) + ShownAll(group)
  }

  /** The grouped interpretation, releasing GSR at the first step at or after `ROC_WIDTH`. */
  function Replayed(es: seq<Event>, bits: seq<Logic>, released: bool): seq<Obs>
    decreases |es|
  {
    if es == [] then [] else
    var n := GroupLen(es);
    var now := !released && es[0].t >= ROC_WIDTH;
    (if now then [Release] else []) + Step(es[..n], es[0].t, bits)
    + Replayed(es[n..], ApplySets(bits, es[..n]), released || now)
  }

  function Zeros(n: nat): seq<Logic> { seq(n, i => L0) }

  /** The history golden replay predicts. */
  function Predicted(v: Vec): seq<Obs>
    requires ClocksOk(v) && v.header.nin >= 0
  {
    Replayed(Expand(v), Zeros(v.header.nin), false)
  }
}
