/** The override state of a procedural block: what `track` knows, at a program point, about
    each forced register since the process last suspended (analyze.py, `StaleRead`, `_merge`). */
module OverrideState {
  import opened Sets

  type Reg = string

  /** A source range, identifying one statement or one read. */
  datatype Span = Span(start: int, end: int)

  /** What is known of one register that has been touched since the last suspension. */
  datatype Abs =
    | At(span: Span)  // this procedural assign is the active one
    | Released        // a deassign was the last forcing statement
    | Ambiguous       // paths with different states meet here
    | Fresh           // an ordinary write was made on some path: read the register afresh

  /** A register absent from the map has not been touched since the last suspension. */
  type State = map<Reg, Abs>

  /** The value of a register in a state, absence included. */
  datatype Val = Missing | Known(abs: Abs)

  function Get(st: State, n: Reg): Val {
    if n in st then Known(st[n]) else Missing
  }

  /** The order of the analysis: the exact values (absence among them) below `Ambiguous`
      below `Fresh`. */
  predicate ValLe(a: Val, b: Val) {
    || a == b
    || b == Known(Fresh)
    || (b == Known(Ambiguous) && a != Known(Fresh))
  }

  ghost predicate Le(a: State, b: State) {
    forall n :: ValLe(Get(a, n), Get(b, n))
  }

  function Names(sts: seq<State>): (names: set<Reg>)
    ensures forall n :: n in names <==> exists i :: 0 <= i < |sts| && n in sts[i]
  {
    set i, n | 0 <= i < |sts| && n in sts[i] :: n
  }

  /** `_merge`: a register keeps its state only if every path agrees; `Fresh` on any path wins. */
  function Merge(sts: seq<State>): (m: State)
    requires sts != []
    ensures m.Keys == Names(sts)
  {
    map n | n in Names(sts) ::
      if exists i :: 0 <= i < |sts| && Get(sts[i], n) == Known(Fresh) then Fresh
      else if n in sts[0] && forall i :: 0 <= i < |sts| ==> Get(sts[i], n) == Known(sts[0][n]) then sts[0][n]
      else Ambiguous
  }

  /** Merging is the least upper bound of the order, whatever the number of paths. */
  lemma MergeIsJoin(sts: seq<State>, u: State)
    requires sts != []
    ensures forall i :: 0 <= i < |sts| ==> Le(sts[i], Merge(sts))
    ensures Le(Merge(sts), u) <==> forall i :: 0 <= i < |sts| ==> Le(sts[i], u)
  {
    var m := Merge(sts);
    forall i, n | 0 <= i < |sts|
      ensures ValLe(Get(sts[i], n), Get(m, n))
    {
      if n in sts[i] {
        assert n in m;
      } else if n in m {
        assert Get(sts[i], n) == Missing;
      }
    }
    if forall i :: 0 <= i < |sts| ==> Le(sts[i], u) {
      forall n
        ensures ValLe(Get(m, n), Get(u, n))
      {
        MergeBelow(sts, u, n);
      }
    }
    if Le(m, u) {
      forall i, n | 0 <= i < |sts|
        ensures ValLe(Get(sts[i], n), Get(u, n))
      {
        assert ValLe(Get(sts[i], n), Get(m, n)) && ValLe(Get(m, n), Get(u, n));
      }
    }
  }

  lemma MergeBelow(sts: seq<State>, u: State, n: Reg)
    requires sts != []
    requires forall i :: 0 <= i < |sts| ==> Le(sts[i], u)
    ensures ValLe(Get(Merge(sts), n), Get(u, n))
  {
    var m := Merge(sts);
    assert forall i :: 0 <= i < |sts| ==> ValLe(Get(sts[i], n), Get(u, n));
    if n in m {
    } else {
      assert Get(sts[0], n) == Missing;
    }
  }

  lemma LeReflexive(a: State)
    ensures Le(a, a)
  {}

  lemma LeTransitive(a: State, b: State, c: State)
    requires Le(a, b) && Le(b, c)
    ensures Le(a, c)
  {
    forall n
      ensures ValLe(Get(a, n), Get(c, n))
    {
      assert ValLe(Get(a, n), Get(b, n)) && ValLe(Get(b, n), Get(c, n));
    }
  }

  // ---- height ------------------------------------------------------------------------------

  /** The registers that have left the bottom layer, and those that reached the top. */
  function Raised(st: State): set<Reg> { set n | n in st && (st[n] == Ambiguous || st[n] == Fresh) }

  function Top(st: State): set<Reg> { set n | n in st && st[n] == Fresh }

  /** How far a state has climbed: at most twice the number of registers. */
  function Rank(st: State): nat { |Raised(st)| + |Top(st)| }

  lemma RankBound(st: State, u: set<Reg>)
    requires st.Keys <= u
    ensures Rank(st) <= 2 * |u|
  {
    SubsetSize(Raised(st), u);
    SubsetSize(Top(st), u);
  }

  /** A strictly larger state has a strictly larger rank: chains are finite. */
  lemma RankAscends(a: State, b: State)
    requires Le(a, b) && a != b
    ensures Rank(a) < Rank(b)
  {
    forall n | n in Raised(a)
      ensures n in Raised(b)
    {
      assert ValLe(Get(a, n), Get(b, n));
    }
    forall n | n in Top(a)
      ensures n in Top(b)
    {
      assert ValLe(Get(a, n), Get(b, n));
    }
    SubsetSize(Raised(a), Raised(b));
    SubsetSize(Top(a), Top(b));
    if Raised(a) == Raised(b) && Top(a) == Top(b) {
      forall n
        ensures Get(a, n) == Get(b, n)
      {
        assert ValLe(Get(a, n), Get(b, n));
        assert n in Raised(a) <==> n in Raised(b);
        assert n in Top(a) <==> n in Top(b);
      }
      SameValuesSameState(a, b);
    }
  }

  lemma SameValuesSameState(a: State, b: State)
    requires forall n :: Get(a, n) == Get(b, n)
    ensures a == b
  {
    assert forall n :: n in a <==> Get(a, n) != Missing;
    assert forall n :: n in b <==> Get(b, n) != Missing;
    assert forall n | n in a :: Get(a, n) == Known(a[n]);
    assert a.Keys == b.Keys;
  }
}
