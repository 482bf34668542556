/** Strings as the text formats handle them: whitespace, fields, lines, joining and ordering. ASCII. */
module Text {

  predicate IsSpace(c: char) { c == ' ' || '\t' <= c <= '\r' || '\U{1C}' <= c <= '\U{1F}' }

  /** A character that ends a line. */
  predicate IsBreak(c: char) { '\n' <= c <= '\r' || '\U{1C}' <= c <= '\U{1E}' }

  predicate IsWord(c: char) { 'A' <= c <= 'Z' || 'a' <= c <= 'z' || '0' <= c <= '9' || c == '_' }

  // ---- runs of characters ----------------------------------------------------------------------------

  datatype CharClass = Spaces | Solid | Digits | WordChars | KeyChars | Inline

  predicate Belongs(c: char, k: CharClass) {
    match k
    case Spaces => IsSpace(c)
    case Solid => !IsSpace(c)
    case Digits => '0' <= c <= '9'
    case WordChars => IsWord(c)
    case KeyChars => IsWord(c) || c == '.'
    case Inline => !IsBreak(c)
  }

  predicate All(s: string, k: CharClass) { forall i :: 0 <= i < |s| ==> Belongs(s[i], k) }

  /** Where the leading characters of a class end. */
  function Run(s: string, k: CharClass): (n: nat)
    ensures n <= |s| && All(s[..n], k) && (n < |s| ==> !Belongs(s[n], k))
  {
    if s == "" || !Belongs(s[0], k) then 0 else
    var n := Run(s[1..], k) + 1;
    assert s[..n] == [s[0]] + s[1..][..n - 1];
    n
  }

  predicate Stops(s: string, k: CharClass) { s == "" || !Belongs(s[0], k) }

  lemma RunIs(a: string, b: string, k: CharClass)
    requires All(a, k) && Stops(b, k)
    ensures Run(a + b, k) == |a| && (a + b)[..|a|] == a && (a + b)[|a|..] == b
  {
    hide Belongs;
    var s := a + b;
    var n := Run(s, k);
    assert forall i :: 0 <= i < |a| ==> s[i] == a[i];
    assert forall i :: 0 <= i < n ==> s[i] == s[..n][i];
    assert b != "" ==> s[|a|] == b[0];
  }

  // ---- stripping -------------------------------------------------------------------------------------

  function LeftStrip(s: string): (r: string)
    ensures |r| <= |s| && Stops(r, Spaces)
  {
    s[Run(s, Spaces)..]
  }

  function RightStrip(s: string): string {
    if s != "" && IsSpace(s[|s| - 1]) then RightStrip(s[..|s| - 1]) else s
  }

  function Strip(s: string): string { RightStrip(LeftStrip(s)) }

  /** Neither begins nor ends in whitespace. */
  predicate Trim(s: string) { s == "" || (!IsSpace(s[0]) && !IsSpace(s[|s| - 1])) }

  lemma {:induction false} RightStripPadded(s: string, b: string)
    requires Trim(s) && All(b, Spaces)
    ensures RightStrip(s + b) == s
    decreases |b|
  {
    if b == "" {
      assert s + b == s;
    } else {
      assert (s + b)[..|s + b| - 1] == s + b[..|b| - 1];
      assert Belongs(b[|b| - 1], Spaces);
      RightStripPadded(s, b[..|b| - 1]);
    }
  }

  lemma StripPadded(a: string, s: string, b: string)
    requires Trim(s) && All(a, Spaces) && All(b, Spaces)
    ensures Strip(a + s + b) == s
  {
    assert a + s + b == a + (s + b);
    if s == "" {
      RunIs(a + b, "", Spaces);
      assert a + s + b == a + b + "";
    } else {
      RunIs(a, s + b, Spaces);
      RightStripPadded(s, b);
    }
  }

  lemma StripTrim(s: string)
    requires Trim(s)
    ensures Strip(s) == s
  {
    StripPadded("", s, "");
    assert "" + s + "" == s;
  }

  // ---- fields ----------------------------------------------------------------------------------------

  /** `str.split()`: the maximal runs of characters other than whitespace. */
  function Fields(s: string): seq<string>
    decreases |s|
  {
    var t := LeftStrip(s);
    if t == "" then [] else
    var n := Run(t, Solid);
    [t[..n]] + Fields(t[n..])
  }

  predicate Field(w: string) { w != "" && All(w, Solid) }

  predicate AreFields(ws: seq<string>) { forall w | w in ws :: Field(w) }

  lemma FieldsIndented(gap: string, s: string)
    requires All(gap, Spaces)
    ensures Fields(gap + s) == Fields(s)
  {
    LeftStripIndented(gap, s);
  }

  lemma LeftStripIndented(gap: string, s: string)
    requires All(gap, Spaces)
    ensures LeftStrip(gap + s) == LeftStrip(s)
  {
    hide Belongs;
    var n := Run(s, Spaces);
    var pre, t := s[..n], s[n..];
    assert gap + s == gap + pre + t;
    assert All(gap + pre, Spaces);
    RunIs(gap + pre, t, Spaces);
  }

  lemma FieldsFirst(w: string, s: string)
    requires Field(w) && Stops(s, Solid)
    ensures Fields(w + s) == [w] + Fields(s)
  {
    RunIs("", w + s, Spaces);
    assert "" + (w + s) == w + s;
    RunIs(w, s, Solid);
  }

  lemma {:induction false} FieldsAre(s: string)
    ensures AreFields(Fields(s))
    decreases |s|
  {
    var t := LeftStrip(s);
    if t != "" {
      FieldsAre(t[Run(t, Solid)..]);
    }
  }

  // ---- joining ---------------------------------------------------------------------------------------

  function Join(sep: string, parts: seq<string>): string {
    if parts == [] then "" else if |parts| == 1 then parts[0] else parts[0] + sep + Join(sep, parts[1..])
  }

  lemma JoinFirst(sep: string, first: string, parts: seq<string>)
    requires parts != []
    ensures Join(sep, [first] + parts) == first + sep + Join(sep, parts)
  {
    assert ([first] + parts)[1..] == parts;
  }

  lemma JoinOne(sep: string, part: string)
    ensures Join(sep, [part]) == part
  {}

  lemma {:induction false} JoinMore(sep: string, parts: seq<string>, last: string)
    requires parts != []
    ensures Join(sep, parts + [last]) == Join(sep, parts) + sep + last
  {
    if |parts| == 1 {
      assert (parts + [last])[1..] == [last];
    } else {
      JoinMore(sep, parts[1..], last);
      assert (parts + [last])[1..] == parts[1..] + [last];
      assert parts[0] + sep + (Join(sep, parts[1..]) + sep + last) == parts[0] + sep + Join(sep, parts[1..]) + sep + last;
    }
  }

  /** Words joined by blanks split into the same words. */
  lemma {:induction false} FieldsJoined(ws: seq<string>)
    requires AreFields(ws)
    ensures Fields(Join(" ", ws)) == ws
  {
    hide Fields, Belongs, All;
    if ws == [] {
      NoFields();
    } else {
      HasFirst(ws);
      if |ws| == 1 {
        FieldsFirst(ws[0], "");
        NoFields();
        assert ws[0] + "" == ws[0] && ws == [ws[0]];
      } else {
        FieldsJoined(ws[1..]);
        var rest := Join(" ", ws[1..]);
        assert Join(" ", ws) == ws[0] + (" " + rest);
        FieldsNext(ws[0], rest);
        assert ws == [ws[0]] + ws[1..];
      }
    }
  }

  lemma NoFields()
    ensures Fields("") == []
  {}

  lemma FieldsNext(w: string, rest: string)
    requires Field(w)
    ensures Fields(w + (" " + rest)) == [w] + Fields(rest)
  {
    hide Fields;
    FieldsFirst(w, " " + rest);
    FieldsIndented(" ", rest);
  }

  lemma HasFirst(ws: seq<string>)
    requires ws != []
    ensures ws[0] in ws && forall w :: w in ws[1..] ==> w in ws
  {}

  /** Whitespace at the end adds no field. */
  lemma {:induction false} FieldsTrailing(s: string, gap: string)
    requires All(gap, Spaces)
    ensures Fields(s + gap) == Fields(s)
    decreases |s|
  {
    hide Fields, Stops, All, Field;
    var pre, w, rest := FieldsCut(s);
    if w == "" {
      NoFields();
      FieldsIndented(pre, "");
      FieldsIndented(pre, gap);
      FieldsIndented(gap, "");
      assert s == pre + "" && gap + "" == gap && s + gap == pre + gap;
    } else {
      assert s == pre + (w + rest) && s + gap == pre + (w + (rest + gap));
      FieldsIndented(pre, w + rest);
      FieldsIndented(pre, w + (rest + gap));
      GapStops(rest, gap);
      FieldsFirst(w, rest);
      FieldsFirst(w, rest + gap);
      FieldsTrailing(rest, gap);
    }
  }

  /** Leading whitespace, the first field, and what follows. */
  lemma FieldsCut(s: string) returns (pre: string, w: string, rest: string)
    ensures s == pre + w + rest && All(pre, Spaces) && (w == "" ==> rest == "")
    ensures w != "" ==> Field(w) && Stops(rest, Solid) && |rest| < |s|
  {
    var n := Run(s, Spaces);
    pre := s[..n];
    var t := s[n..];
    var k := Run(t, Solid);
    w, rest := t[..k], t[k..];
    if t != "" { SolidFirst(t); }
  }

  lemma SolidFirst(t: string)
    requires t != "" && Stops(t, Spaces)
    ensures Run(t, Solid) > 0
  {}

  lemma GapStops(rest: string, gap: string)
    requires Stops(rest, Solid) && All(gap, Spaces)
    ensures Stops(rest + gap, Solid)
  {
    if rest + gap != "" { assert (rest + gap)[0] == if rest == "" then gap[0] else rest[0]; }
  }

  /** `" ".join(s.split())`: whitespace normalised. */
  function Squeeze(s: string): string { Join(" ", Fields(s)) }

  /** No whitespace but single blanks inside. */
  predicate Inner(s: string) { Trim(s) && forall i :: 0 <= i < |s| ==> s[i] == ' ' || !IsSpace(s[i]) }

  lemma {:induction false} JoinedInner(ws: seq<string>)
    requires AreFields(ws)
    ensures Inner(Join(" ", ws)) && (ws != [] ==> Join(" ", ws) != "")
  {
    if ws != [] {
      HasFirst(ws);
      assert forall i :: 0 <= i < |ws[0]| ==> Belongs(ws[0][i], Solid);
      if |ws| > 1 {
        JoinedInner(ws[1..]);
        var rest := Join(" ", ws[1..]);
        var s := ws[0] + " " + rest;
        assert Join(" ", ws) == s && s[0] == ws[0][0] && s[|s| - 1] == rest[|rest| - 1];
      }
    }
  }

  lemma Squeezed(s: string)
    ensures Inner(Squeeze(s)) && Squeeze(Squeeze(s)) == Squeeze(s)
  {
    FieldsAre(s);
    JoinedInner(Fields(s));
    FieldsJoined(Fields(s));
  }

  // ---- replacing ------------------------------------------------------------------------------------

  /** `str.replace` of one character. */
  function Replace(s: string, c: char, by_: string): string {
    if s == "" then "" else (if s[0] == c then by_ else [s[0]]) + Replace(s[1..], c, by_)
  }

  lemma {:induction false} ReplaceJoin(a: string, b: string, c: char, by_: string)
    ensures Replace(a + b, c, by_) == Replace(a, c, by_) + Replace(b, c, by_)
  {
    if a == "" {
      assert a + b == b;
    } else {
      var s, h := a + b, if a[0] == c then by_ else [a[0]];
      assert s[0] == a[0] && s[1..] == a[1..] + b;
      ReplaceJoin(a[1..], b, c, by_);
      assert h + (Replace(a[1..], c, by_) + Replace(b, c, by_)) == h + Replace(a[1..], c, by_) + Replace(b, c, by_);
    }
  }

  lemma ReplaceOf(s: string, c: char, by_: string)
    requires 1 <= |s| <= 2
    ensures Replace(s, c, by_) == (if s[0] == c then by_ else [s[0]]) + if |s| == 1 then "" else if s[1] == c then by_ else [s[1]]
  {
    assert Replace(s[1..], c, by_) == if |s| == 1 then "" else (if s[1] == c then by_ else [s[1]]) + Replace(s[2..], c, by_);
  }

  /** Backslashes doubled, then `q` preceded by one. */
  function Escape(s: string, q: char): string { Replace(Replace(s, '\\', "\\\\"), q, ['\\', q]) }

  function Escaped(c: char, q: char): string { if c == '\\' || c == q then ['\\', c] else [c] }

  /** The two passes escape every special character once. */
  lemma EscapeFirst(s: string, q: char)
    requires s != "" && q != '\\'
    ensures Escape(s, q) == Escaped(s[0], q) + Escape(s[1..], q)
  {
    var x, y := if s[0] == '\\' then "\\\\" else [s[0]], Replace(s[1..], '\\', "\\\\");
    ReplaceJoin(x, y, q, ['\\', q]);
    ReplaceOf(x, q, ['\\', q]);
  }

  // ---- lines -----------------------------------------------------------------------------------------

  /** `str.splitlines()`. */
  function Lines(s: string): seq<string>
    decreases |s|
  {
    if s == "" then [] else
    var n := Run(s, Inline);
    if n == |s| then [s] else [s[..n]] + Lines(s[n + (if "\r\n" <= s[n..] then 2 else 1)..])
  }

  predicate OneLine(s: string) { All(s, Inline) }

  lemma LinesFirst(l: string, s: string)
    requires OneLine(l)
    ensures Lines(l + "\n" + s) == [l] + Lines(s)
  {
    var t := "\n" + s;
    assert l + "\n" + s == l + t;
    assert t[0] == '\n' && !Belongs('\n', Inline);
    RunIs(l, t, Inline);
    assert !("\r\n" <= t);
    assert (l + t)[|l| + 1..] == s;
  }

  /** Lines joined by newlines, with one at the end, read back as the same lines. */
  lemma {:induction false} LinesJoined(ls: seq<string>)
    requires ls != [] && forall l | l in ls :: OneLine(l)
    ensures Lines(Join("\n", ls) + "\n") == ls
  {
    hide Lines, OneLine;
    HasFirst(ls);
    if |ls| == 1 {
      LinesFirst(ls[0], "");
      NoLines();
      assert ls[0] + "\n" + "" == ls[0] + "\n" && ls == [ls[0]];
    } else {
      var j := Join("\n", ls[1..]);
      LinesJoined(ls[1..]);
      LinesFirst(ls[0], j + "\n");
      assert ls[0] + "\n" + j + "\n" == ls[0] + "\n" + (j + "\n");
      assert ls == [ls[0]] + ls[1..];
    }
  }

  lemma NoLines()
    ensures Lines("") == []
  {}

  lemma InnerOneLine(s: string)
    requires Inner(s)
    ensures OneLine(s)
  {}

  predicate OneLines(ls: seq<string>) { forall l | l in ls :: OneLine(l) }

  lemma {:induction false} EscapeOneLine(s: string, q: char)
    requires OneLine(s) && !IsBreak(q) && q != '\\'
    ensures OneLine(Escape(s, q))
  {
    if s != "" {
      EscapeFirst(s, q);
      EscapeOneLine(s[1..], q);
    }
  }

  lemma {:induction false} JoinOneLine(sep: string, parts: seq<string>)
    requires OneLine(sep) && OneLines(parts)
    ensures OneLine(Join(sep, parts))
  {
    if parts != [] {
      HasFirst(parts);
      JoinOneLine(sep, parts[1..]);
    }
  }

  // ---- order -----------------------------------------------------------------------------------------

  /** The order of strings by code points. */
  predicate Before(a: string, b: string) {
    b != "" && (a == "" || (if a[0] == b[0] then Before(a[1..], b[1..]) else a[0] < b[0]))
  }

  lemma {:induction false} BeforeTotal(a: string, b: string)
    ensures a == b || Before(a, b) || Before(b, a)
    ensures !(Before(a, b) && Before(b, a)) && !Before(a, a)
  {
    if a != "" {
      BeforeTotal(a[1..], a[1..]);
      if b != "" {
        BeforeTotal(a[1..], b[1..]);
        assert a == [a[0]] + a[1..] && b == [b[0]] + b[1..];
      }
    }
  }

  lemma {:induction false} BeforeChain(a: string, b: string, c: string)
    requires Before(a, b) && Before(b, c)
    ensures Before(a, c)
  {
    if a != "" && a[0] == b[0] == c[0] { BeforeChain(a[1..], b[1..], c[1..]); }
  }

  predicate First(m: string, s: set<string>) { m in s && forall x | x in s && x != m :: Before(m, x) }

  lemma {:induction false} HasLeast(s: set<string>)
    requires s != {}
    ensures exists m :: First(m, s)
    decreases s
  {
    var x :| x in s;
    var rest := s - {x};
    if rest == {} {
      assert s == {x};
      assert First(x, s);
    } else {
      HasLeast(rest);
      var m :| First(m, rest);
      BeforeTotal(x, m);
      if Before(m, x) {
        assert First(m, s);
      } else {
        forall y | y in s && y != x
          ensures Before(x, y)
        {
          if y != m { BeforeChain(x, m, y); }
        }
        assert First(x, s);
      }
    }
  }

  predicate InOrder(ws: seq<string>) { forall i, j :: 0 <= i < j < |ws| ==> Before(ws[i], ws[j]) }

  /** `sorted` of distinct names. */
  ghost function Sorted(s: set<string>): (r: seq<string>)
    ensures InOrder(r) && forall x :: x in r <==> x in s
    decreases s
  {
    if s == {} then [] else
    HasLeast(s);
    var m :| First(m, s);
    var rest := Sorted(s - {m});
    assert forall x :: x in [m] + rest <==> x == m || x in rest;
    [m] + rest
  }
}
