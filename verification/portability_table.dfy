/** The whole portability table (`render` and `parse` of portability.py): a section per model source, a row
    per model. */
module PortabilityTable {
  import opened Text
  import opened Wrap
  import opened Portability
  import Decimal

  // ---- the document ----------------------------------------------------------------------------------

  datatype Info = Info(generated: string, head: string, models: int, configurations: int, glob: Option<string>)

  datatype Meta = Meta(generated: string, head: string, image: string, digest: string, sources: map<string, Info>)

  /** The rows of one model source. */
  datatype Source = Source(name: string, rows: seq<Row>)

  function CellOf(r: Row, verilator: bool): string { if verilator then r.verilator else r.iverilog }

  function Yes(rows: seq<Row>, verilator: bool): int {
    if rows == [] then 0 else (if CellOf(rows[0], verilator) == "yes" then 1 else 0) + Yes(rows[1..], verilator)
  }

  function Config(rows: seq<Row>, verilator: bool): int {
    if rows == [] then 0 else (if "no: config: " <= CellOf(rows[0], verilator) then 1 else 0) + Config(rows[1..], verilator)
  }

  function CountLine(rows: seq<Row>, verilator: bool): string {
    var yes, config := Yes(rows, verilator), Config(rows, verilator);
    "| " + (if verilator then "verilator" else "iverilog") + " | " + Decimal.Signed(yes) + " | " + Decimal.Signed(|rows| - yes - config) + " | "
    + Decimal.Signed(config) + " |"
  }

  function InsertRow(r: Row, rows: seq<Row>): seq<Row> {
    if rows == [] then [r] else if Before(rows[0].model, r.model) then [rows[0]] + InsertRow(r, rows[1..]) else [r] + rows
  }

  /** `sorted` by model. */
  function SortRows(rows: seq<Row>): seq<Row> { if rows == [] then [] else InsertRow(rows[0], SortRows(rows[1..])) }

  function RowLines(rows: seq<Row>): seq<string> { if rows == [] then [] else [RowLine(rows[0])] + RowLines(rows[1..]) }

  function InfoLine(i: Info): string {
    "_Smoke run " + i.generated + " at " + i.head + ": " + Decimal.Signed(i.models) + " models, " + Decimal.Signed(i.configurations)
    + " configurations" + (if i.glob.Some? then "; partial run, --models " + i.glob.value else "") + "._"
  }

  function InfoLines(i: Info): seq<string> { [InfoLine(i), ""] }

  /** The note under the counts, phrase by phrase. */
  function NoteParts(): seq<string> {
    ["_config: every failing", "smoke configuration was", "refused by the model's", "own attribute check",
     "(ruling S51); the smoke", "run says nothing about", "the simulator._"]
  }

  function ConfigNote(): string { Join(" ", NoteParts()) }

  function Banner(): string { "<!-- GENERATED by xut " + "portability \U{2014} do not edit -->" }

  function Rule(): string { "|---|---|---|---|---|---|---|---|" }

  /** The counts of a section, and the heading of its rows. */
  function Counts(rows: seq<Row>): seq<string> {
    ["| simulator | yes | no | config |", "|---|---|---|---|", CountLine(rows, false), CountLine(rows, true), "", ConfigNote(), ""]
  }

  function Columns(): seq<string> { [Header(), Rule()] }

  function Heading(name: string): seq<string> { ["", "## " + name, ""] }

  function Preamble(s: Source, meta: Meta): seq<string> {
    Heading(s.name) + (if s.name in meta.sources then InfoLines(meta.sources[s.name]) else []) + Counts(s.rows) + Columns()
  }

  function SourceLines(s: Source, meta: Meta): seq<string> { Preamble(s, meta) + RowLines(SortRows(s.rows)) }

  function AllSources(ss: seq<Source>, meta: Meta): seq<string> {
    if ss == [] then [] else SourceLines(ss[0], meta) + AllSources(ss[1..], meta)
  }

  function Origin(meta: Meta): string {
    "Generated by `xut portability` on " + meta.generated + " at " + meta.head + ". Container " + meta.image + " " + meta.digest + "."
  }

  function Opening(meta: Meta): seq<string> { [Banner(), "# UNISIM portability", "", Origin(meta)] }

  function Document(ss: seq<Source>, meta: Meta): string { Join("\n", Opening(meta) + AllSources(ss, meta)) + "\n" }

  // ---- reading back ----------------------------------------------------------------------------------

  type Table = map<string, map<string, Row>>

  datatype Reading = Reading(table: Table, section: Option<string>, inRows: bool)

  predicate ReadingOk(st: Reading) { st.section.Some? ==> st.section.value in st.table }

  /** One line of `parse`; None is the error of a row that is not well formed. */
  function ReadLine(st: Reading, line: string): (r: Option<Reading>)
    requires ReadingOk(st)
    ensures r.Some? ==> ReadingOk(r.value)
  {
    if "## " <= line then
      var name := Strip(line[3..]);
      Some(Reading(if name in st.table then st.table else st.table[name := map[]], Some(name), false))
    else if st.section.None? || !("|" <= line) then Some(st.(inRows := st.inRows && "|" <= line))
    else if Strip(line) == Header() then Some(st.(inRows := true))
    else if !st.inRows || "|---" <= line then Some(st)
    else
      var row := ReadRow(line);
      if row.None? then None else
      var name := st.section.value;
      Some(st.(table := st.table[name := st.table[name][row.value.model := row.value]]))
  }

  function ReadLines(st: Reading, lines: seq<string>): (r: Option<Reading>)
    requires ReadingOk(st)
    ensures r.Some? ==> ReadingOk(r.value)
    decreases |lines|
  {
    if lines == [] then Some(st) else
    var next := ReadLine(st, lines[0]);
    if next.None? then None else ReadLines(next.value, lines[1..])
  }

  const START := Reading(map[], None, false)

  function Read(md: string): Option<Table> {
    var r := ReadLines(START, Lines(md));
    if r.None? then None else Some(r.value.table)
  }

  lemma {:induction false} ReadJoin(st: Reading, a: seq<string>, b: seq<string>)
    requires ReadingOk(st)
    ensures ReadLines(st, a + b) == var r := ReadLines(st, a); if r.None? then None else ReadLines(r.value, b)
    decreases |a|
  {
    hide ReadLine;
    if a == [] {
      assert a + b == b;
    } else {
      assert (a + b)[1..] == a[1..] + b && (a + b)[0] == a[0];
      var next := ReadLine(st, a[0]);
      if next.Some? { ReadJoin(next.value, a[1..], b); }
    }
  }

  lemma ReadOne(st: Reading, line: string)
    requires ReadingOk(st)
    ensures ReadLines(st, [line]) == ReadLine(st, line)
  {
    hide ReadLine;
    assert [line][1..] == [];
    var next := ReadLine(st, line);
    if next.Some? { assert ReadLines(next.value, []) == next; }
  }

  /** `parse`. */
  method Parse(md: string) returns (r: Option<Table>)
    ensures r == Read(md)
  {
    hide ReadLine;
    var lines, st := Lines(md), START;
    for i := 0 to |lines|
      invariant ReadingOk(st) && ReadLines(START, lines[..i]) == Some(st)
    {
      var next := ReadLine(st, lines[i]);
      ReadJoin(START, lines[..i], [lines[i]]);
      ReadOne(st, lines[i]);
      assert lines[..i + 1] == lines[..i] + [lines[i]];
      if next.None? {
        ReadJoin(START, lines[..i + 1], lines[i + 1..]);
        assert lines == lines[..i + 1] + lines[i + 1..];
        return None;
      }
      st := next.value;
    }
    assert lines[..|lines|] == lines;
    r := Some(st.table);
  }

  /** `render`. */
  method Render(ss: seq<Source>, meta: Meta) returns (md: string)
    ensures md == Document(ss, meta)
  {
    hide Preamble, SortRows, SourceLines;
    var out := Opening(meta);
    for i := 0 to |ss|
      invariant out == Opening(meta) + AllSources(ss[..i], meta)
    {
      var lines := RenderSource(ss[i], meta);
      SourcesMore(ss[..i], ss[i], meta);
      assert ss[..i + 1] == ss[..i] + [ss[i]];
      assert out + lines == Opening(meta) + (AllSources(ss[..i], meta) + lines);
      out := out + lines;
    }
    assert ss[..|ss|] == ss;
    md := Join("\n", out) + "\n";
  }

  /** The section of one model source. */
  method RenderSource(s: Source, meta: Meta) returns (out: seq<string>)
    ensures out == SourceLines(s, meta)
  {
    hide Preamble, SortRows, RowLine;
    out := Preamble(s, meta);
    var sorted := SortRows(s.rows);
    for k := 0 to |sorted|
      invariant out == Preamble(s, meta) + RowLines(sorted[..k])
    {
      RowLinesMore(sorted[..k], sorted[k]);
      assert sorted[..k + 1] == sorted[..k] + [sorted[k]];
      assert out + [RowLine(sorted[k])] == Preamble(s, meta) + (RowLines(sorted[..k]) + [RowLine(sorted[k])]);
      out := out + [RowLine(sorted[k])];
    }
    assert sorted[..|sorted|] == sorted;
  }

  lemma {:induction false} RowLinesMore(rows: seq<Row>, r: Row)
    ensures RowLines(rows + [r]) == RowLines(rows) + [RowLine(r)]
  {
    hide RowLine;
    if rows == [] {
      assert RowLines([r]) == [RowLine(r)] + RowLines([]);
    } else {
      RowLinesMore(rows[1..], r);
      assert (rows + [r])[1..] == rows[1..] + [r];
    }
  }

  lemma {:induction false} SourcesMore(ss: seq<Source>, s: Source, meta: Meta)
    ensures AllSources(ss + [s], meta) == AllSources(ss, meta) + SourceLines(s, meta)
  {
    hide SourceLines;
    if ss == [] {
      assert AllSources([s], meta) == SourceLines(s, meta) + AllSources([], meta);
    } else {
      SourcesMore(ss[1..], s, meta);
      assert (ss + [s])[1..] == ss[1..] + [s];
    }
  }

  // ---- the document reads back -----------------------------------------------------------------------

  /** A row per model: rows of the same model are the same row. */
  predicate PerModel(rows: seq<Row>) { forall r, q | r in rows && q in rows && r.model == q.model :: r == q }

  /** The rows of a model source that the table can hold. */
  predicate Fits(rows: seq<Row>) { PerModel(rows) && forall r | r in rows :: RowOk(r) }

  predicate NameOk(s: Source) { Trim(s.name) && OneLine(s.name) }

  predicate MetaOk(m: Meta) {
    OneLine(m.generated) && OneLine(m.head) && OneLine(m.image) && OneLine(m.digest)
    && forall n | n in m.sources ::
         OneLine(m.sources[n].generated) && OneLine(m.sources[n].head) && (m.sources[n].glob.Some? ==> OneLine(m.sources[n].glob.value))
  }

  predicate DistinctNames(ss: seq<Source>) { forall i, j :: 0 <= i < j < |ss| ==> ss[i].name != ss[j].name }

  /** Exactly the rows, by model. */
  ghost predicate Gives(m: map<string, Row>, rows: seq<Row>) {
    (forall r | r in rows :: r.model in m && m[r.model] == r) && forall k | k in m :: exists r | r in rows :: r.model == k
  }

  ghost predicate GivesAll(t: Table, ss: seq<Source>) {
    (forall s | s in ss :: s.name in t && Gives(t[s.name], s.rows)) && forall n | n in t :: exists s | s in ss :: s.name == n
  }

  /** What reading the lines of some rows makes of the entries of a section; None is an error. */
  function FillRead(m: map<string, Row>, rows: seq<Row>): Option<map<string, Row>>
    decreases |rows|
  {
    if rows == [] then Some(m)
    else if RowLine(rows[0]) == Header() then FillRead(m, rows[1..])
    else
      var q := ReadRow(RowLine(rows[0]));
      if q.None? then None else FillRead(m[q.value.model := q.value], rows[1..])
  }

  /** The section that is read. */
  function Section(s: Source): Option<map<string, Row>> { FillRead(map[], SortRows(s.rows)) }

  lemma TitlesAreCells()
    ensures Line(Titles()) == Header() && AllSqueezed(Titles()) == Titles()
  {
    hide Cell, Squeeze;
    forall i | 0 <= i < |Titles()|
      ensures Cell(Titles()[i]) == Titles()[i] && Squeeze(Titles()[i]) == Titles()[i]
    {
      PlainCell(Titles()[i]);
    }
    assert Cells(Titles()) == Titles();
    AllSqueezedAt(Titles());
  }

  predicate Plain(w: string) { w != "" && forall i :: 0 <= i < |w| ==> 'A' <= w[i] <= 'z' && w[i] != '\\' }

  lemma PlainCell(w: string)
    requires Plain(w)
    ensures Cell(w) == w && Squeeze(w) == w
  {
    FieldsFirst(w, "");
    assert w + "" == w && Fields("") == [];
    EscapePlain(w);
  }

  lemma {:induction false} EscapePlain(w: string)
    requires forall i :: 0 <= i < |w| ==> 'A' <= w[i] <= 'z' && w[i] != '\\'
    ensures Escape(w, '|') == w
  {
    if w != "" {
      EscapeFirst(w, '|');
      EscapePlain(w[1..]);
    }
  }

  /** No row is written like the heading of the table. */
  lemma NotHeader(r: Row)
    requires RowOk(r)
    ensures RowLine(r) != Header()
  {
    hide ReadCells, Line, Squeeze, ListOk;
    RowBack(r);
    TitlesAreCells();
    CellsBack(Titles());
    assert Titles()[1] == "iverilog" && |Titles()| == 8;
  }

  lemma RowRead(st: Reading, r: Row)
    requires ReadingOk(st) && st.section.Some? && st.inRows
    ensures var q, n := ReadRow(RowLine(r)), st.section.value;
            ReadLine(st, RowLine(r)) ==
            if RowLine(r) == Header() then Some(st)
            else if q.None? then None else Some(st.(table := st.table[n := st.table[n][q.value.model := q.value]]))
  {
    hide ReadRow, Cells, Written;
    LineShape(Written(r));
  }

  lemma LineShape(cs: seq<string>)
    ensures !("## " <= Line(cs)) && "|" <= Line(cs) && !("|---" <= Line(cs)) && Strip(Line(cs)) == Line(cs)
  {
    hide Cells;
    var l := Line(cs);
    StripTrim(l);
    assert l[0] == '|' && l[1] == ' ';
  }

  lemma {:induction false} RowsRead(st: Reading, rows: seq<Row>)
    requires ReadingOk(st) && st.section.Some? && st.inRows
    ensures var f, n := FillRead(st.table[st.section.value], rows), st.section.value;
            ReadLines(st, RowLines(rows)) == if f.None? then None else Some(st.(table := st.table[n := f.value]))
    decreases |rows|
  {
    hide ReadLine, RowLine, Header, ReadRow;
    if rows == [] {
      assert st.table[st.section.value := st.table[st.section.value]] == st.table;
    } else {
      var r, n := rows[0], st.section.value;
      RowRead(st, r);
      assert RowLines(rows)[1..] == RowLines(rows[1..]);
      var q := ReadRow(RowLine(r));
      if RowLine(r) == Header() {
        RowsRead(st, rows[1..]);
      } else if q.Some? {
        var next := st.(table := st.table[n := st.table[n][q.value.model := q.value]]);
        RowsRead(next, rows[1..]);
        var f := FillRead(next.table[n], rows[1..]);
        if f.Some? { assert next.table[n := f.value] == st.table[n := f.value]; }
      }
    }
  }

  /** Where an entry comes from. */
  lemma {:induction false} FilledFrom(m: map<string, Row>, rows: seq<Row>, k: string) returns (r: Row)
    requires FillRead(m, rows).Some? && k in FillRead(m, rows).value && k !in m
    ensures r in rows && ReadRow(RowLine(r)) == Some(FillRead(m, rows).value[k]) && FillRead(m, rows).value[k].model == k
    decreases |rows|
  {
    hide RowLine, Header, ReadRow;
    assert rows != [];
    var q := ReadRow(RowLine(rows[0]));
    if RowLine(rows[0]) == Header() {
      r := FilledFrom(m, rows[1..], k);
    } else if q.value.model != k {
      r := FilledFrom(m[q.value.model := q.value], rows[1..], k);
    } else {
      r := FilledLast(m[q.value.model := q.value], rows[0], rows[1..], k);
    }
    assert forall x :: x in rows <==> x == rows[0] || x in rows[1..];
  }

  /** The same when `last` was the source of the entry so far. */
  lemma {:induction false} FilledLast(m: map<string, Row>, last: Row, rows: seq<Row>, k: string) returns (r: Row)
    requires FillRead(m, rows).Some? && k in m && m[k].model == k && ReadRow(RowLine(last)) == Some(m[k])
    ensures k in FillRead(m, rows).value
    ensures (r == last || r in rows) && ReadRow(RowLine(r)) == Some(FillRead(m, rows).value[k]) && FillRead(m, rows).value[k].model == k
    decreases |rows|
  {
    hide RowLine, Header, ReadRow;
    r := last;
    if rows != [] {
      var q := ReadRow(RowLine(rows[0]));
      if RowLine(rows[0]) == Header() {
        r := FilledLast(m, last, rows[1..], k);
      } else if q.value.model != k {
        r := FilledLast(m[q.value.model := q.value], last, rows[1..], k);
      } else {
        r := FilledLast(m[q.value.model := q.value], rows[0], rows[1..], k);
      }
      assert forall x :: x in rows <==> x == rows[0] || x in rows[1..];
    }
  }

  /** The model that is read is the one written, normalised. */
  lemma ModelRead(r: Row)
    ensures ReadRow(RowLine(r)).Some? ==> ReadRow(RowLine(r)).value.model == Squeeze(r.model)
  {
    hide Squeeze, ReadCells, Line, ListCell, FromListCell, SimCell, Verdict;
    CellsBack(Written(r));
    EightSqueezed(r);
  }

  /** Only rows that fit come back. */
  lemma GivenFits(rows: seq<Row>, sorted: seq<Row>)
    requires (forall r :: r in sorted <==> r in rows) && FillRead(map[], sorted).Some? && Gives(FillRead(map[], sorted).value, rows)
    ensures Fits(rows)
  {
    var f := FillRead(map[], sorted).value;
    hide FillRead, RowLine, RowOk, Squeeze;
    forall r | r in rows
      ensures RowOk(r)
    {
      var q := FilledFrom(map[], sorted, r.model);
      ModelRead(q);
      var p := FilledFrom(map[], sorted, q.model);
      ModelRead(p);
      Squeezed(p.model);
      RowBack(r);
    }
  }

  /** Rows that fit fill the section with themselves. */
  lemma {:induction false} FillKeeps(m: map<string, Row>, rows: seq<Row>, all: seq<Row>)
    requires Fits(all) && (forall r | r in rows :: r in all)
    requires forall k | k in m :: m[k] in all && m[k].model == k
    ensures FillRead(m, rows).Some?
    ensures var f := FillRead(m, rows).value;
      && (forall k | k in f :: f[k] in all && f[k].model == k)
      && (forall k | k in m :: k in f)
      && (forall r | r in rows :: r.model in f)
    decreases |rows|
  {
    hide RowLine, Header, ReadRow, RowOk;
    if rows != [] {
      var r := rows[0];
      assert r in rows;
      RowBack(r);
      NotHeader(r);
      FillKeeps(m[r.model := r], rows[1..], all);
      assert forall q | q in rows :: q == r || q in rows[1..];
    }
  }

  lemma FitsGiven(rows: seq<Row>, sorted: seq<Row>)
    requires Fits(rows) && forall r :: r in sorted <==> r in rows
    ensures FillRead(map[], sorted).Some? && Gives(FillRead(map[], sorted).value, rows)
  {
    hide FillRead, RowOk;
    FillKeeps(map[], sorted, rows);
    var f := FillRead(map[], sorted).value;
    forall r | r in rows
      ensures r.model in f && f[r.model] == r
    {
      assert r in sorted;
    }
    forall k | k in f
      ensures exists r | r in rows :: r.model == k
    {
      assert f[k] in rows;
    }
  }

  lemma SectionExact(s: Source)
    ensures Section(s).Some? && Gives(Section(s).value, s.rows) <==> Fits(s.rows)
  {
    hide FillRead, SortRows, Gives, Fits;
    SortedRows(s.rows);
    if Section(s).Some? && Gives(Section(s).value, s.rows) { GivenFits(s.rows, SortRows(s.rows)); }
    if Fits(s.rows) { FitsGiven(s.rows, SortRows(s.rows)); }
  }

  lemma {:induction false} SortedRows(rows: seq<Row>)
    ensures forall r :: r in SortRows(rows) <==> r in rows
  {
    if rows != [] {
      SortedRows(rows[1..]);
      Inserted(rows[0], SortRows(rows[1..]));
      assert forall q :: q in rows <==> q == rows[0] || q in rows[1..];
    }
  }

  lemma {:induction false} Inserted(r: Row, rows: seq<Row>)
    ensures forall q :: q in InsertRow(r, rows) <==> q == r || q in rows
  {
    hide Before;
    if rows != [] {
      Inserted(r, rows[1..]);
      assert forall q :: q in rows <==> q == rows[0] || q in rows[1..];
    }
  }

  /** A line that tells the reader nothing. */
  predicate Skipped(st: Reading, l: string)
    requires ReadingOk(st)
  {
    ReadLine(st, l) == Some(st)
  }

  lemma {:induction false} SkipAll(st: Reading, lines: seq<string>)
    requires ReadingOk(st) && forall l | l in lines :: Skipped(st, l)
    ensures ReadLines(st, lines) == Some(st)
    decreases |lines|
  {
    hide ReadLine;
    if lines != [] {
      assert lines[0] in lines;
      SkipAll(st, lines[1..]);
    }
  }

  lemma Prose(st: Reading, l: string)
    requires ReadingOk(st) && !st.inRows && (l == "" || (l[0] != '#' && l[0] != '|'))
    ensures Skipped(st, l)
  {}

  /** Before the rows of a section, tables other than the heading of the rows are passed over. */
  lemma OtherTable(st: Reading, l: string)
    requires ReadingOk(st) && st.section.Some? && !st.inRows && TableLine(l) && l != Header()
    ensures Skipped(st, l)
  {
    hide Header;
    StripTrim(l);
  }

  predicate TableLine(l: string) { |l| > 2 && l[0] == '|' && l[1] != '#' && l[|l| - 1] == '|' }

  lemma HeaderShape()
    ensures TableLine(Header()) && Header()[1] == ' ' && Header()[2] == 'M'
  {
    var j := Join(" | ", Titles());
    assert j[0] == Titles()[0][0];
  }

  lemma CountLineShape(rows: seq<Row>, verilator: bool)
    ensures TableLine(CountLine(rows, verilator)) && CountLine(rows, verilator)[2] != 'M'
  {
    hide Decimal.Signed;
    var l := CountLine(rows, verilator);
    assert l[2] == if verilator then 'v' else 'i';
  }

  lemma CountsSkipped(st: Reading, rows: seq<Row>)
    requires ReadingOk(st) && st.section.Some? && !st.inRows
    ensures forall l | l in Counts(rows) :: Skipped(st, l)
  {
    hide ReadLine, CountLine, Header, Skipped, ConfigNote;
    var c := Counts(rows);
    assert c[0][2] == 's' && c[1][2] == '-';
    NoteShape();
    HeaderShape();
    OtherTable(st, c[0]);
    OtherTable(st, c[1]);
    CountLineShape(rows, false);
    OtherTable(st, c[2]);
    CountLineShape(rows, true);
    OtherTable(st, c[3]);
    Prose(st, "");
    Prose(st, ConfigNote());
  }

  lemma InfoSkipped(st: Reading, i: Info)
    requires ReadingOk(st) && !st.inRows
    ensures forall l | l in InfoLines(i) :: Skipped(st, l)
  {
    hide Skipped, Decimal.Signed;
    assert InfoLine(i)[0] == '_';
    Prose(st, InfoLine(i));
    Prose(st, "");
  }

  lemma ColumnsRead(st: Reading)
    requires ReadingOk(st) && st.section.Some? && !st.inRows
    ensures ReadLines(st, Columns()) == Some(st.(inRows := true))
  {
    HeaderLine(st);
    RuleLine(st.(inRows := true));
    hide ReadLine, Header, Rule;
    var rule := Rule();
    ReadOne(st, Header());
    ReadOne(st.(inRows := true), rule);
    ReadJoin(st, [Header()], [rule]);
  }

  lemma HeaderLine(st: Reading)
    requires ReadingOk(st) && st.section.Some? && !st.inRows
    ensures ReadLine(st, Header()) == Some(st.(inRows := true))
  {
    HeaderShape();
    hide Header;
    StripTrim(Header());
  }

  lemma RuleLine(st: Reading)
    requires ReadingOk(st) && st.section.Some? && st.inRows
    ensures ReadLine(st, Rule()) == Some(st)
  {
    HeaderShape();
    RuleShape();
    hide Header, Rule;
    StripTrim(Rule());
  }

  lemma RuleShape()
    ensures TableLine(Rule()) && "|---" <= Rule() && Rule()[1] == '-'
  {
    var rule := Rule();
    assert rule[0] == '|' && rule[1] == '-' && rule[2] == '-' && rule[3] == '-' && rule[|rule| - 1] == '|';
    assert rule[..4] == "|---";
  }

  lemma HeadRead(st: Reading, name: string)
    requires ReadingOk(st) && name !in st.table && Trim(name)
    ensures ReadLines(st, Heading(name)) == Some(Reading(st.table[name := map[]], Some(name), false))
  {
    var l := "## " + name;
    var there := Reading(st.table[name := map[]], Some(name), false);
    var before := st.(inRows := false);
    assert l[3..] == name;
    StripTrim(name);
    assert ReadLine(st, "") == Some(before);
    assert ReadLine(before, l) == Some(there);
    assert ReadLine(there, "") == Some(there);
    hide ReadLine;
    ReadOne(st, "");
    ReadOne(before, l);
    ReadOne(there, "");
    ReadJoin(st, [""], [l]);
    ReadJoin(st, ["", l], [""]);
    assert [""] + [l] == ["", l] && ["", l] + [""] == Heading(name);
  }

  /** The lines of a section before its rows leave the reader at an empty table. */
  lemma PreambleRead(st: Reading, s: Source, meta: Meta)
    requires ReadingOk(st) && s.name !in st.table && Trim(s.name)
    ensures ReadLines(st, Preamble(s, meta)) == Some(Reading(st.table[s.name := map[]], Some(s.name), true))
  {
    hide ReadLine, Counts, InfoLines, Heading, Columns;
    var there := Reading(st.table[s.name := map[]], Some(s.name), false);
    var head, info := Heading(s.name), if s.name in meta.sources then InfoLines(meta.sources[s.name]) else [];
    HeadRead(st, s.name);
    if s.name in meta.sources { InfoSkipped(there, meta.sources[s.name]); }
    SkipAll(there, info);
    CountsSkipped(there, s.rows);
    SkipAll(there, Counts(s.rows));
    ColumnsRead(there);
    ReadJoin(st, head, info);
    ReadJoin(st, head + info, Counts(s.rows));
    ReadJoin(st, head + info + Counts(s.rows), Columns());
  }

  // ---- every line is one line ------------------------------------------------------------------------

  lemma SignedOneLine(i: int)
    ensures OneLine(Decimal.Signed(i))
  {}

  lemma {:induction false} LineOneLine(cs: seq<string>)
    ensures OneLine(Join(" | ", Cells(cs)))
    decreases |cs|
  {
    hide Cell;
    if cs != [] {
      Squeezed(cs[0]);
      InnerOneLine(Squeeze(cs[0]));
      CellOneLine(cs[0]);
      LineOneLine(cs[1..]);
      assert Cells(cs)[1..] == Cells(cs[1..]);
    }
  }

  lemma CellOneLine(c: string)
    ensures OneLine(Cell(c))
  {
    Squeezed(c);
    InnerOneLine(Squeeze(c));
    EscapeOneLine(Squeeze(c), '|');
  }

  lemma {:induction false} RowsOneLine(rows: seq<Row>)
    ensures OneLines(RowLines(rows))
  {
    hide Written, Cells;
    if rows != [] {
      LineOneLine(Written(rows[0]));
      RowsOneLine(rows[1..]);
    }
  }

  lemma OpeningOneLine(meta: Meta)
    requires MetaOk(meta)
    ensures OneLines(Opening(meta))
  {
    hide Origin, Banner, MetaOk;
    OriginShape(meta);
    BannerShape();
    var title := Opening(meta)[1];
    assert OneLine(title);
  }

  lemma NoteOneLine()
    ensures OneLine(ConfigNote())
  {
    hide OneLine;
    NoteStart();
    NoteEnd();
    AllSeven(NoteParts());
    Blank();
    JoinOneLine(" ", NoteParts());
  }

  lemma Blank()
    ensures OneLine(" ")
  {}

  lemma NoteStart()
    ensures OneLine("_config: every failing") && OneLine("smoke configuration was") && OneLine("refused by the model's")
  {}

  lemma NoteEnd()
    ensures OneLine("own attribute check") && OneLine("(ruling S51); the smoke") && OneLine("run says nothing about") && OneLine("the simulator._")
  {}

  lemma AllSeven(p: seq<string>)
    requires |p| == 7 && OneLine(p[0]) && OneLine(p[1]) && OneLine(p[2]) && OneLine(p[3]) && OneLine(p[4]) && OneLine(p[5]) && OneLine(p[6])
    ensures OneLines(p)
  {
    hide OneLine;
  }

  lemma NoteShape()
    ensures ConfigNote() != "" && ConfigNote()[0] == '_'
  {
    hide Join;
    var p := NoteParts();
    assert p == [p[0]] + p[1..] && p[0][0] == '_';
    JoinFirst(" ", p[0], p[1..]);
  }

  lemma CountOneLine(rows: seq<Row>, verilator: bool)
    ensures OneLine(CountLine(rows, verilator))
  {
    hide Yes, Config, Decimal.Signed;
    SignedOneLine(Yes(rows, verilator));
    SignedOneLine(Config(rows, verilator));
    SignedOneLine(|rows| - Yes(rows, verilator) - Config(rows, verilator));
  }

  lemma CountsOneLine(rows: seq<Row>)
    ensures OneLines(Counts(rows))
  {
    hide CountLine, ConfigNote;
    CountOneLine(rows, false);
    CountOneLine(rows, true);
    NoteOneLine();
    assert OneLine(Counts(rows)[0]) && OneLine(Counts(rows)[1]);
  }

  lemma ColumnsOneLine()
    ensures OneLines(Columns())
  {
    hide Header;
    HeaderOneLine();
    assert OneLine(Columns()[1]);
  }

  lemma HeaderOneLine()
    ensures OneLine(Header())
  {
    hide Titles, Cells, Line, OneLine;
    TitlesAreCells();
    LineWhole(Titles());
  }

  lemma LineWhole(cs: seq<string>)
    ensures OneLine(Line(cs))
  {
    hide Cells;
    LineOneLine(cs);
  }

  lemma InfoOneLine(i: Info)
    requires OneLine(i.generated) && OneLine(i.head) && (i.glob.Some? ==> OneLine(i.glob.value))
    ensures OneLines(InfoLines(i))
  {
    hide Decimal.Signed;
    SignedOneLine(i.models);
    SignedOneLine(i.configurations);
  }

  lemma {:induction false} SourcesOneLine(ss: seq<Source>, meta: Meta)
    requires MetaOk(meta) && forall s | s in ss :: OneLine(s.name)
    ensures OneLines(AllSources(ss, meta))
  {
    hide Counts, Columns, InfoLines, RowLines;
    if ss != [] {
      var s := ss[0];
      assert s in ss;
      CountsOneLine(s.rows);
      ColumnsOneLine();
      RowsOneLine(SortRows(s.rows));
      if s.name in meta.sources { InfoOneLine(meta.sources[s.name]); }
      SourcesOneLine(ss[1..], meta);
    }
  }

  // ---- all sections ----------------------------------------------------------------------------------

  lemma SourceRead(st: Reading, s: Source, meta: Meta)
    requires ReadingOk(st) && s.name !in st.table && NameOk(s)
    ensures ReadLines(st, SourceLines(s, meta)) ==
            if Section(s).None? then None else Some(Reading(st.table[s.name := Section(s).value], Some(s.name), true))
  {
    hide ReadLine, Preamble, RowLines, SortRows, FillRead, OneLine;
    var there := Reading(st.table[s.name := map[]], Some(s.name), true);
    PreambleRead(st, s, meta);
    RowsRead(there, SortRows(s.rows));
    ReadJoin(st, Preamble(s, meta), RowLines(SortRows(s.rows)));
    if Section(s).Some? { assert there.table[s.name := Section(s).value] == st.table[s.name := Section(s).value]; }
  }

  /** The sections that are read are those written, and there is an error exactly when one has an error. */
  ghost predicate Sections(before: Table, ss: seq<Source>, t: Table) {
    && (forall s | s in ss :: s.name in t && Section(s) == Some(t[s.name]))
    && (forall n | n in before :: n in t && t[n] == before[n])
    && (forall n | n in t :: n in before || exists s | s in ss :: s.name == n)
  }

  lemma {:induction false} SourcesRead(st: Reading, ss: seq<Source>, meta: Meta)
    requires ReadingOk(st) && DistinctNames(ss) && forall s | s in ss :: NameOk(s) && s.name !in st.table
    ensures var r := ReadLines(st, AllSources(ss, meta));
            if exists s :: s in ss && Section(s).None? then r.None? else r.Some? && Sections(st.table, ss, r.value.table)
    decreases |ss|
  {
    hide SourceLines, ReadLine, NameOk, Section;
    if ss != [] {
      var s := ss[0];
      assert s in ss && forall x :: x in ss <==> x == s || x in ss[1..];
      SourceRead(st, s, meta);
      ReadJoin(st, SourceLines(s, meta), AllSources(ss[1..], meta));
      if Section(s).Some? {
        var next := Reading(st.table[s.name := Section(s).value], Some(s.name), true);
        OtherNames(ss);
        SourcesRead(next, ss[1..], meta);
        var r := ReadLines(next, AllSources(ss[1..], meta));
        if r.Some? { MoreSections(st.table, s, ss, next.table, r.value.table); }
      }
    }
  }

  lemma OtherNames(ss: seq<Source>)
    requires ss != [] && DistinctNames(ss)
    ensures DistinctNames(ss[1..]) && forall x | x in ss[1..] :: x.name != ss[0].name
  {
    forall x | x in ss[1..]
      ensures x.name != ss[0].name
    {
      var i :| 0 <= i < |ss[1..]| && ss[1..][i] == x;
      assert ss[i + 1] == x;
    }
  }

  lemma MoreSections(before: Table, s: Source, ss: seq<Source>, next: Table, t: Table)
    requires ss != [] && s == ss[0] && s.name !in before && Section(s).Some? && next == before[s.name := Section(s).value]
    requires Sections(next, ss[1..], t)
    ensures Sections(before, ss, t)
  {
    hide Section;
    assert s in ss && forall x :: x in ss <==> x == s || x in ss[1..];
  }

  lemma SectionsGive(ss: seq<Source>, t: Table)
    requires Sections(map[], ss, t)
    ensures GivesAll(t, ss) <==> forall s | s in ss :: Fits(s.rows)
  {
    hide Section, Gives, Fits;
    forall s | s in ss
      ensures Gives(t[s.name], s.rows) <==> Fits(s.rows)
    {
      SectionExact(s);
    }
  }

  /** `parse(render(rows, meta))` gives back every row of every model source, and no more, exactly when every
      row can be written and no two rows of a model source are of one model. */
  lemma ReadsBack(ss: seq<Source>, meta: Meta)
    requires DistinctNames(ss) && MetaOk(meta) && forall s | s in ss :: NameOk(s)
    ensures var t := Read(Document(ss, meta)); t.Some? && GivesAll(t.value, ss) <==> forall s | s in ss :: Fits(s.rows)
  {
    hide ReadLine, NameOk, MetaOk, Opening, AllSources, GivesAll, Sections, Section, Fits, Gives;
    AllOneLine(ss, meta);
    var ls := Opening(meta) + AllSources(ss, meta);
    LinesJoined(ls);
    OpeningRead(meta);
    ReadJoin(START, Opening(meta), AllSources(ss, meta));
    SourcesRead(START, ss, meta);
    var r := ReadLines(START, AllSources(ss, meta));
    if r.Some? { SectionsGive(ss, r.value.table); }
    forall s | s in ss && Section(s).None?
      ensures !Fits(s.rows)
    {
      SectionExact(s);
    }
  }

  lemma AllOneLine(ss: seq<Source>, meta: Meta)
    requires MetaOk(meta) && forall s | s in ss :: NameOk(s)
    ensures OneLines(Opening(meta) + AllSources(ss, meta)) && Opening(meta) + AllSources(ss, meta) != []
  {
    hide AllSources, RowOk;
    OpeningOneLine(meta);
    SourcesOneLine(ss, meta);
  }

  lemma OpeningRead(meta: Meta)
    ensures ReadLines(START, Opening(meta)) == Some(START)
  {
    hide Origin, Banner, Skipped, ReadLine;
    OriginShape(meta);
    BannerShape();
    Prose(START, Banner());
    TitleSkipped();
    Prose(START, "");
    Prose(START, Origin(meta));
    SkipAll(START, Opening(meta));
  }

  lemma TitleSkipped()
    ensures Skipped(START, "# UNISIM portability")
  {
    assert "# UNISIM portability"[1] == ' ';
  }

  lemma OriginShape(meta: Meta)
    ensures Origin(meta) != "" && Origin(meta)[0] == 'G' && (MetaOk(meta) ==> OneLine(Origin(meta)))
  {
    assert Origin(meta)[0] == 'G';
  }

  lemma BannerShape()
    ensures Banner() != "" && Banner()[0] == '<' && OneLine(Banner())
  {
    var b := "portability \U{2014} do not edit -->";
    assert OneLine("<!-- GENERATED by xut ");
    assert OneLine(b);
  }
}
