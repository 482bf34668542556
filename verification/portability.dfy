/** The portability table (portability.py): written as a Markdown document and read back. */
module Portability {
  import opened Text
  import opened Wrap
  import Decimal

  datatype Row = Row(model: string, iverilog: string, verilator: string, verilatorize: string, equiv: string,
                     triggers: seq<string>, enablers: seq<string>, reason: string)

  /** A dash: no triggers, no enablers, no verdict. */
  const NONE := "\U{2014}"

  function Titles(): seq<string> {
    ["Model", "iverilog", "verilator", "verilatorize", "equiv", "triggers", "enablers", "reason"]
  }

  function Header(): string { "| " + Join(" | ", Titles()) + " |" }

  predicate Verdict(s: string) { s in ["pass", "fail", "error", "blocked", NONE] }

  predicate SimCell(s: string) { s == "yes" || s == "no" || "no: " <= s }

  // ---- lists of names --------------------------------------------------------------------------------

  function ListCell(xs: seq<string>): string { if Join(", ", xs) == "" then NONE else Join(", ", xs) }

  predicate Separated(s: string) { |s| >= 2 && s[0] == ',' && s[1] == ' ' }

  /** `str.split(", ")`. */
  function SplitNames(s: string, cur: string): seq<string> {
    if Separated(s) then [cur] + SplitNames(s[2..], "") else if s == "" then [cur] else SplitNames(s[1..], cur + [s[0]])
  }

  function FromListCell(v: string): seq<string> { if v == NONE then [] else SplitNames(v, "") }

  predicate Whole(x: string) { forall i :: 0 <= i < |x| - 1 ==> !(x[i] == ',' && x[i + 1] == ' ') }

  /** The lists of names that a cell can hold: no name contains the separator, and the text of the list is
      normalised, not empty and not the dash. */
  predicate ListOk(xs: seq<string>) {
    xs == [] || ((forall x | x in xs :: Whole(x)) && Squeeze(Join(", ", xs)) == Join(", ", xs) != "" && Join(", ", xs) != NONE)
  }

  lemma {:induction false} SplitWhole(a: string, b: string, cur: string)
    requires Whole(a) && (b == "" || Separated(b))
    ensures SplitNames(a + b, cur) == SplitNames(b, cur + a)
    decreases |a|
  {
    if a == "" {
      assert a + b == b && cur + a == cur;
    } else {
      var s := a + b;
      assert s[0] == a[0] && s[1..] == a[1..] + b;
      if |a| > 1 { assert s[1] == a[1]; }
      SplitWhole(a[1..], b, cur + [a[0]]);
      assert cur + [a[0]] + a[1..] == cur + a;
    }
  }

  lemma {:induction false} SplitJoined(xs: seq<string>)
    requires xs != [] && forall x | x in xs :: Whole(x)
    ensures SplitNames(Join(", ", xs), "") == xs
  {
    HasFirst(xs);
    assert "" + xs[0] == xs[0];
    if |xs| == 1 {
      SplitWhole(xs[0], "", "");
      assert xs[0] + "" == xs[0] && xs == [xs[0]];
    } else {
      var rest := Join(", ", xs[1..]);
      SplitWhole(xs[0], ", " + rest, "");
      assert xs[0] + ", " + rest == xs[0] + (", " + rest);
      assert (", " + rest)[2..] == rest;
      SplitJoined(xs[1..]);
      assert xs == [xs[0]] + xs[1..];
    }
  }

  predicate Comma(s: string) { s != "" && s[|s| - 1] == ',' }

  /** What is split joins to the text it was split from. */
  lemma {:induction false} JoinedSplit(s: string, cur: string)
    requires Whole(cur) && (Comma(cur) ==> s == "" || s[0] != ' ')
    ensures var r := SplitNames(s, cur); r != [] && Join(", ", r) == cur + s && forall x | x in r :: Whole(x)
    decreases |s|
  {
    hide Whole, Join, Comma, SplitNames;
    SplitStep(s, cur);
    if Separated(s) {
      WholeEmpty();
      JoinedSplit(s[2..], "");
      JoinFirst(", ", cur, SplitNames(s[2..], ""));
      Glue(cur, ", ", s[2..]);
      Glue("", "", s[2..]);
    } else if s == "" {
      JoinOne(", ", cur);
      assert cur + s == cur;
    } else {
      WholeNext(cur, s[0]);
      assert s[0] == ',' && |s| > 1 ==> s[1..][0] != ' ';
      JoinedSplit(s[1..], cur + [s[0]]);
      Glue(cur, [s[0]], s[1..]);
    }
  }

  lemma Glue(a: string, b: string, c: string)
    ensures a + b + c == a + (b + c) && "" + c == c
  {}

  lemma SplitStep(s: string, cur: string)
    ensures Separated(s) ==> s == ", " + s[2..] && SplitNames(s, cur) == [cur] + SplitNames(s[2..], "")
    ensures s == "" ==> SplitNames(s, cur) == [cur]
    ensures !Separated(s) && s != "" ==> SplitNames(s, cur) == SplitNames(s[1..], cur + [s[0]]) && s == [s[0]] + s[1..]
  {
    hide Whole;
    if Separated(s) {
      assert s == [s[0], s[1]] + s[2..];
    }
  }

  lemma WholeEmpty()
    ensures Whole("") && !Comma("")
  {}

  lemma WholeNext(cur: string, c: char)
    requires Whole(cur) && (Comma(cur) ==> c != ' ')
    ensures Whole(cur + [c]) && (Comma(cur + [c]) <==> c == ',')
  {}

  /** A list of names survives its cell exactly when it may be written there. */
  lemma ListBack(xs: seq<string>)
    ensures FromListCell(Squeeze(ListCell(xs))) == xs <==> ListOk(xs)
  {
    hide Squeeze;
    var v := Squeeze(ListCell(xs));
    DashSqueezed();
    if ListOk(xs) && xs != [] { SplitJoined(xs); }
    if FromListCell(v) == xs && xs != [] {
      JoinedSplit(v, "");
      assert "" + v == v;
    }
  }

  lemma DashSqueezed()
    ensures Squeeze(NONE) == NONE
  {
    FieldsFirst(NONE, "");
    assert NONE + "" == NONE && Fields("") == [];
  }

  // ---- cells -----------------------------------------------------------------------------------------

  /** `_esc`: whitespace normalised, backslashes and bars escaped. */
  function Cell(text: string): string { Escape(Squeeze(text), '|') }

  /** `_unesc`. */
  function Unescape(s: string): string {
    if |s| >= 2 && s[0] == '\\' && s[1] != '\n' then [s[1]] + Unescape(s[2..])
    else if s == "" then "" else [s[0]] + Unescape(s[1..])
  }

  lemma {:induction false} UnescapeBack(s: string)
    ensures Unescape(Escape(s, '|')) == s
  {
    if s != "" {
      EscapeFirst(s, '|');
      UnescapeBack(s[1..]);
      var x, y := Escaped(s[0], '|'), Escape(s[1..], '|');
      assert (x + y)[0] == x[0] && (x + y)[|x|..] == y;
      if |x| == 2 { assert (x + y)[1] == x[1]; }
      assert s == [s[0]] + s[1..];
    }
  }

  /** `re.split` at the bars that do not follow a backslash. */
  function Bars(s: string, cur: string, after: bool): seq<string> {
    if s == "" then [cur]
    else if s[0] == '|' && !after then [cur] + Bars(s[1..], "", false)
    else Bars(s[1..], cur + [s[0]], s[0] == '\\')
  }

  predicate Guarded(p: string, after: bool) {
    (p != "" && p[0] == '|' ==> after) && forall i {:trigger p[i]} :: 0 < i < |p| && p[i] == '|' ==> p[i - 1] == '\\'
  }

  lemma {:induction false} BarsThrough(p: string, rest: string, cur: string, after: bool)
    requires Guarded(p, after)
    ensures Bars(p + rest, cur, after) == Bars(rest, cur + p, if p == "" then after else p[|p| - 1] == '\\')
    decreases |p|
  {
    if p == "" {
      assert p + rest == rest && cur + p == cur;
    } else {
      var s, q := p + rest, p[1..];
      assert s[0] == p[0] && s[1..] == q + rest;
      assert forall i :: 0 <= i < |q| ==> q[i] == p[i + 1];
      assert Guarded(q, p[0] == '\\') && (p[0] == '|' ==> after);
      assert q != "" ==> q[|q| - 1] == p[|p| - 1];
      BarsThrough(q, rest, cur + [p[0]], p[0] == '\\');
      assert cur + [p[0]] + q == cur + p;
    }
  }

  lemma {:induction false} EscapeGuarded(s: string)
    ensures Guarded(Escape(s, '|'), false)
    ensures Trim(s) ==> Trim(Escape(s, '|'))
    ensures s != "" ==> Escape(s, '|') != "" && Escape(s, '|')[|Escape(s, '|')| - 1] == s[|s| - 1]
  {
    if s != "" {
      EscapeFirst(s, '|');
      EscapeGuarded(s[1..]);
      var x, y := Escaped(s[0], '|'), Escape(s[1..], '|');
      var e := x + y;
      assert forall i :: |x| <= i < |e| ==> e[i] == y[i - |x|];
      assert e[0] == x[0];
      if |x| == 2 { assert e[1] == x[1]; }
      if |s| == 1 { assert s[1..] == ""; }
    }
  }

  function Line(cs: seq<string>): string { "| " + Join(" | ", Cells(cs)) + " |" }

  function Cells(cs: seq<string>): seq<string> { seq(|cs|, i requires 0 <= i < |cs| => Cell(cs[i])) }

  function Padded(c: string): string { " " + Cell(c) + " " }

  function AllPadded(cs: seq<string>): seq<string> { if cs == [] then [] else [Padded(cs[0])] + AllPadded(cs[1..]) }

  lemma PaddedGuarded(c: string)
    ensures Guarded(Padded(c), false) && Strip(Padded(c)) == Cell(c) && Unescape(Cell(c)) == Squeeze(c)
  {
    Squeezed(c);
    EscapeGuarded(Squeeze(c));
    UnescapeBack(Squeeze(c));
    StripPadded(" ", Cell(c), " ");
    var e, p := Cell(c), Padded(c);
    assert forall i :: 0 < i <= |e| ==> p[i] == e[i - 1];
  }

  /** The bars of a written line are those between its cells. */
  lemma {:induction false} BarsOfLine(cs: seq<string>)
    requires cs != []
    ensures Bars(" " + Join(" | ", Cells(cs)) + " ", "", false) == AllPadded(cs)
  {
    hide Padded, Bars, Cells;
    if |cs| == 1 {
      PaddedThrough(cs[0], "");
      LastCell(cs);
      BarNext("", Padded(cs[0]));
    } else {
      var rest := " " + Join(" | ", Cells(cs[1..])) + " ";
      BarsOfLine(cs[1..]);
      PaddedThrough(cs[0], "|" + rest);
      BarNext(rest, Padded(cs[0]));
      MoreCells(cs);
    }
  }

  lemma PaddedThrough(c: string, rest: string)
    ensures Bars(Padded(c) + rest, "", false) == Bars(rest, Padded(c), false)
  {
    hide Cell, Guarded, Bars, Unescape, Squeeze;
    var p := Padded(c);
    PaddedGuarded(c);
    BarsThrough(p, rest, "", false);
    assert "" + p == p && p[|p| - 1] == ' ';
  }

  lemma LastCell(cs: seq<string>)
    requires |cs| == 1
    ensures " " + Join(" | ", Cells(cs)) + " " == Padded(cs[0]) + "" && AllPadded(cs) == [Padded(cs[0])]
  {
    hide Cell;
    assert Cells(cs) == [Cell(cs[0])] && AllPadded(cs[1..]) == [];
  }

  lemma MoreCells(cs: seq<string>)
    requires |cs| > 1
    ensures " " + Join(" | ", Cells(cs)) + " " == Padded(cs[0]) + ("|" + (" " + Join(" | ", Cells(cs[1..])) + " "))
  {
    hide Cell;
    assert Cells(cs)[1..] == Cells(cs[1..]) && Cells(cs)[0] == Cell(cs[0]);
    var e, j := Cell(cs[0]), Join(" | ", Cells(cs[1..]));
    assert Join(" | ", Cells(cs)) == e + " | " + j;
    assert " " + (e + " | " + j) + " " == " " + e + " " + ("|" + (" " + j + " "));
  }

  lemma BarNext(rest: string, cur: string)
    ensures Bars("|" + rest, cur, false) == [cur] + Bars(rest, "", false) && Bars("", cur, false) == [cur]
  {
    assert ("|" + rest)[1..] == rest;
  }

  /** `_cells`: the cells of a table line; None for a line without bars at its ends. */
  function ReadCells(line: string): Option<seq<string>> {
    var b := Strip(line);
    if b == "" || b[0] != '|' || b[|b| - 1] != '|' then None else
    Some(Texts(Bars(if |b| < 2 then "" else b[1..|b| - 1], "", false)))
  }

  function Texts(parts: seq<string>): seq<string> { if parts == [] then [] else [Unescape(Strip(parts[0]))] + Texts(parts[1..]) }

  function AllSqueezed(cs: seq<string>): seq<string> { if cs == [] then [] else [Squeeze(cs[0])] + AllSqueezed(cs[1..]) }

  lemma {:induction false} TextsPadded(cs: seq<string>)
    ensures Texts(AllPadded(cs)) == AllSqueezed(cs)
  {
    if cs != [] {
      PaddedGuarded(cs[0]);
      TextsPadded(cs[1..]);
      assert AllPadded(cs)[1..] == AllPadded(cs[1..]);
    }
  }

  /** Any mix of bars and backslashes comes back; only whitespace is normalised. */
  lemma CellsBack(cs: seq<string>)
    requires cs != []
    ensures ReadCells(Line(cs)) == Some(AllSqueezed(cs))
  {
    hide Cells, AllSqueezed, Texts, Bars;
    var l, j := Line(cs), Join(" | ", Cells(cs));
    StripTrim(l);
    assert l[0] == '|' && l[|l| - 1] == '|';
    assert l[1..|l| - 1] == " " + j + " ";
    BarsOfLine(cs);
    TextsPadded(cs);
  }

  // ---- rows ------------------------------------------------------------------------------------------

  function Written(r: Row): seq<string> {
    [r.model, r.iverilog, r.verilator, r.verilatorize, r.equiv, ListCell(r.triggers), ListCell(r.enablers), r.reason]
  }

  function RowLine(r: Row): string { Line(Written(r)) }

  /** None is the error of a row that is not well formed. */
  function FromCells(c: seq<string>): Option<Row> {
    if |c| != 8 || !Verdict(c[4]) || !SimCell(c[1]) || !SimCell(c[2]) then None
    else Some(Row(c[0], c[1], c[2], c[3], c[4], FromListCell(c[5]), FromListCell(c[6]), c[7]))
  }

  function ReadRow(line: string): Option<Row> {
    var c := ReadCells(line);
    if c.None? then None else FromCells(c.value)
  }

  predicate Normal(s: string) { Squeeze(s) == s }

  predicate RowOk(r: Row) {
    && Normal(r.model) && Normal(r.iverilog) && Normal(r.verilator) && Normal(r.verilatorize) && Normal(r.equiv)
    && Normal(r.reason) && ListOk(r.triggers) && ListOk(r.enablers)
    && Verdict(r.equiv) && SimCell(r.iverilog) && SimCell(r.verilator)
  }

  /** A row comes back exactly when its texts are normalised, its lists can be written and its verdict
      cells are legal. */
  lemma RowBack(r: Row)
    ensures ReadRow(RowLine(r)) == Some(r) <==> RowOk(r)
  {
    hide Squeeze, ReadCells, Line, ListCell, FromListCell, ListOk, SimCell, Verdict;
    CellsBack(Written(r));
    EightSqueezed(r);
    ListBack(r.triggers);
    ListBack(r.enablers);
  }

  lemma EightSqueezed(r: Row)
    ensures AllSqueezed(Written(r)) == [Squeeze(r.model), Squeeze(r.iverilog), Squeeze(r.verilator), Squeeze(r.verilatorize), Squeeze(r.equiv),
                                        Squeeze(ListCell(r.triggers)), Squeeze(ListCell(r.enablers)), Squeeze(r.reason)]
  {
    hide Squeeze, ListCell;
    var w := Written(r);
    AllSqueezedAt(w);
    assert |AllSqueezed(w)| == 8;
  }

  lemma {:induction false} AllSqueezedAt(cs: seq<string>)
    ensures |AllSqueezed(cs)| == |cs| && forall i :: 0 <= i < |cs| ==> AllSqueezed(cs)[i] == Squeeze(cs[i])
  {
    if cs != [] { AllSqueezedAt(cs[1..]); }
  }
}
