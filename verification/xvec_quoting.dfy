/** Quoted tokens, header pairs and comments of stimulus files (formats/xvec.py). */
module XvecQuoting {
  import opened Text
  import opened Wrap

  // ---- quoting ---------------------------------------------------------------------------------------

  /** `str.replace` of the two characters `a`, `b` by one. */
  function Swap(s: string, a: char, b: char, to: char): string {
    if |s| >= 2 && s[0] == a && s[1] == b then [to] + Swap(s[2..], a, b, to)
    else if s == "" then "" else [s[0]] + Swap(s[1..], a, b, to)
  }

  /** The two passes of `_unquote`: escaped quotes first, then doubled backslashes. */
  function Unescape(s: string): string { Swap(Swap(s, '\\', '"', '"'), '\\', '\\', '\\') }

  function Unquote(v: string): string {
    if |v| >= 2 && v[0] == '"' && v[|v| - 1] == '"' then Unescape(v[1..|v| - 1]) else v
  }

  predicate Bare(c: char) { !IsSpace(c) && c != '"' && c != '#' && c != '\\' }

  predicate Control(c: char) { c < ' ' || c == '\U{7F}' }

  predicate Representable(v: string) { forall i :: 0 <= i < |v| ==> !Control(v[i]) }

  /** `_quote`, for a text without control characters. */
  function Quote(v: string): string {
    if v != "" && forall i :: 0 <= i < |v| ==> Bare(v[i]) then v else "\"" + Escape(v, '"') + "\""
  }

  /** The first pass undoes the second replacement. */
  lemma {:induction false} FirstPass(w: string)
    ensures Swap(Replace(w, '"', "\\\""), '\\', '"', '"') == w
    ensures Replace(w, '"', "\\\"") != "" ==> Replace(w, '"', "\\\"")[0] != '"'
  {
    if w != "" {
      FirstPass(w[1..]);
      var rest := Replace(w[1..], '"', "\\\"");
      assert w == [w[0]] + w[1..];
      if w[0] == '"' {
        var s := "\\\"" + rest;
        assert s[0] == '\\' && s[1] == '"' && s[2..] == rest;
      } else {
        var s := [w[0]] + rest;
        assert s[1..] == rest;
      }
    }
  }

  /** The second pass undoes the first. */
  lemma {:induction false} SecondPass(w: string)
    ensures Swap(Replace(w, '\\', "\\\\"), '\\', '\\', '\\') == w
  {
    if w != "" {
      SecondPass(w[1..]);
      var rest := Replace(w[1..], '\\', "\\\\");
      assert w == [w[0]] + w[1..];
      if w[0] == '\\' {
        var s := "\\\\" + rest;
        assert s[0] == '\\' && s[1] == '\\' && s[2..] == rest;
      } else {
        var s := [w[0]] + rest;
        assert s[1..] == rest;
      }
    }
  }

  /** Unquoting undoes quoting, for every mix of quotes and backslashes. */
  lemma UnquoteBack(v: string)
    ensures Unescape(Escape(v, '"')) == v && Unquote("\"" + Escape(v, '"') + "\"") == v && Unquote(Quote(v)) == v
  {
    FirstPass(Replace(v, '\\', "\\\\"));
    SecondPass(v);
    var e := Escape(v, '"');
    var q := "\"" + e + "\"";
    assert q[1..|q| - 1] == e;
    if v != "" { assert v[0] == '"' ==> !Bare(v[0]); }
  }

  // ---- where a quoted token ends ---------------------------------------------------------------------

  /** The length of `(?:[^"\\]|\\.)*"` at the start of `s`. */
  function QuotedLength(s: string): (n: Option<nat>)
    ensures n.Some? ==> 0 < n.value <= |s|
  {
    if s == "" then None
    else if s[0] == '"' then Some(1)
    else if s[0] == '\\' then
      (if |s| < 2 || s[1] == '\n' then None else
       var n := QuotedLength(s[2..]);
       if n.None? then None else Some(n.value + 2))
    else
      var n := QuotedLength(s[1..]);
      if n.None? then None else Some(n.value + 1)
  }

  lemma LengthStep(c: char, y: string)
    ensures var n := QuotedLength(y);
      QuotedLength(Escaped(c, '"') + y) == if n.None? then None else Some(n.value + |Escaped(c, '"')|)
  {
    var x := Escaped(c, '"');
    var s := x + y;
    assert s[0] == x[0] && s[|x|..] == y;
    if |x| == 2 { assert s[1] == x[1]; }
  }

  lemma EscapeThen(v: string, b: string)
    requires v != ""
    ensures Escape(v, '"') + "\"" + b == Escaped(v[0], '"') + (Escape(v[1..], '"') + "\"" + b)
  {
    EscapeFirst(v, '"');
    hide Escape, Escaped;
    var x, y := Escaped(v[0], '"'), Escape(v[1..], '"');
    assert x + y + "\"" + b == x + (y + "\"" + b);
  }

  /** An escaped text ends at its own closing quote. */
  lemma {:induction false} QuotedEnds(v: string, rest: string)
    ensures QuotedLength(Escape(v, '"') + "\"" + rest) == Some(|Escape(v, '"')| + 1)
  {
    if v == "" {
      assert "" + "\"" + rest == "\"" + rest;
    } else {
      EscapeFirst(v, '"');
      hide Escape, QuotedLength, Escaped;
      QuotedEnds(v[1..], rest);
      EscapeThen(v, rest);
      LengthStep(v[0], Escape(v[1..], '"') + "\"" + rest);
    }
  }

  // ---- header pairs ----------------------------------------------------------------------------------

  predicate KeyStart(c: char) { 'A' <= c <= 'Z' || 'a' <= c <= 'z' || c == '_' }

  /** `is_header_key`. */
  predicate HeaderKey(k: string) { k != "" && KeyStart(k[0]) && All(k, KeyChars) }

  /** The length of a header value: a quoted token, or else everything up to whitespace. */
  function ValueLength(s: string): (n: nat)
    ensures n <= |s|
  {
    if s != "" && s[0] == '"' && QuotedLength(s[1..]).Some? then QuotedLength(s[1..]).value + 1 else Run(s, Solid)
  }

  datatype Entry = Entry(key: string, value: string)

  /** `_KV.findall`. */
  function Pairs(s: string): seq<Entry>
    decreases |s|
  {
    if s == "" then [] else
    var k := if KeyStart(s[0]) then Run(s, KeyChars) else 0;
    if 0 < k < |s| && s[k] == '=' && ValueLength(s[k + 1..]) > 0 then
      var n := ValueLength(s[k + 1..]);
      [Entry(s[..k], s[k + 1..][..n])] + Pairs(s[k + 1..][n..])
    else Pairs(s[1..])
  }

  lemma PairsIndented(s: string)
    ensures Pairs(" " + s) == Pairs(s)
  {
    assert (" " + s)[1..] == s;
  }

  lemma QuoteLength(v: string, rest: string)
    requires Stops(rest, Solid)
    ensures ValueLength(Quote(v) + rest) == |Quote(v)| > 0
  {
    var q := Quote(v);
    var s := q + rest;
    if v != "" && forall i :: 0 <= i < |v| ==> Bare(v[i]) {
      assert s[0] == v[0] && Bare(v[0]);
      RunIs(v, rest, Solid);
    } else {
      assert s[1..] == Escape(v, '"') + "\"" + rest;
      QuotedEnds(v, rest);
    }
  }

  lemma PairAt(k: string, t: string)
    requires HeaderKey(k) && ValueLength(t) > 0
    ensures Pairs(k + ("=" + t)) == [Entry(k, t[..ValueLength(t)])] + Pairs(t[ValueLength(t)..])
  {
    hide ValueLength, KeyStart, Belongs;
    var s := k + ("=" + t);
    EqualsNoKey();
    RunIs(k, "=" + t, KeyChars);
    assert s[0] == k[0] && s[|k|] == '=' && s[|k| + 1..] == t;
  }

  lemma EqualsNoKey()
    ensures !Belongs('=', KeyChars)
  {}

  lemma PairsFirst(k: string, v: string, rest: string)
    requires HeaderKey(k) && Stops(rest, Solid)
    ensures Pairs(k + "=" + Quote(v) + rest) == [Entry(k, Quote(v))] + Pairs(rest)
  {
    hide Quote, ValueLength, Pairs;
    var t := Quote(v) + rest;
    assert k + "=" + Quote(v) + rest == k + ("=" + t);
    QuoteLength(v, rest);
    PairAt(k, t);
    assert t[..|Quote(v)|] == Quote(v) && t[|Quote(v)|..] == rest;
  }

  function Written(e: Entry): string { e.key + "=" + Quote(e.value) }

  function AllWritten(es: seq<Entry>): seq<string> { seq(|es|, i requires 0 <= i < |es| => Written(es[i])) }

  function AllQuoted(es: seq<Entry>): seq<Entry> { seq(|es|, i requires 0 <= i < |es| => Entry(es[i].key, Quote(es[i].value))) }

  lemma {:induction false} PairsJoined(es: seq<Entry>)
    requires forall e | e in es :: HeaderKey(e.key)
    ensures Pairs(Join(" ", AllWritten(es))) == AllQuoted(es)
    decreases |es|
  {
    hide Quote, Pairs, HeaderKey;
    if es == [] {
      NoPairs();
    } else {
      var e, ws := es[0], AllWritten(es);
      assert e in es && ws[0] == Written(e) && ws[1..] == AllWritten(es[1..]);
      assert AllQuoted(es) == [Entry(e.key, Quote(e.value))] + AllQuoted(es[1..]);
      PairsJoined(es[1..]);
      if |es| == 1 {
        PairsFirst(e.key, e.value, "");
        NoPairs();
        assert Written(e) + "" == Written(e) && ws[1..] == [];
      } else {
        var rest := Join(" ", ws[1..]);
        PairsFirst(e.key, e.value, " " + rest);
        PairsIndented(rest);
        assert Join(" ", ws) == Written(e) + (" " + rest);
      }
    }
  }

  lemma NoPairs()
    ensures Pairs("") == []
  {}

  // ---- comments --------------------------------------------------------------------------------------

  /** What precedes the comment of a line, reading on from inside or outside a quoted token. */
  function Uncommented(s: string, quoted: bool): string {
    if s == "" then ""
    else if s[0] == '\\' && quoted then (if |s| == 1 then s else s[..2] + Uncommented(s[2..], true))
    else if s[0] == '"' then "\"" + Uncommented(s[1..], !quoted)
    else if s[0] == '#' && !quoted then ""
    else [s[0]] + Uncommented(s[1..], quoted)
  }

  /** `_strip_comment`. */
  method StripComment(raw: string) returns (r: string)
    ensures r == Uncommented(raw, false)
  {
    var quoted, i := false, 0;
    assert raw[..0] + Uncommented(raw[0..], false) == Uncommented(raw, false) by { assert raw[0..] == raw; }
    while i < |raw|
      invariant 0 <= i <= |raw| + 1
      invariant i <= |raw| ==> raw[..i] + Uncommented(raw[i..], quoted) == Uncommented(raw, false)
      invariant i == |raw| + 1 ==> raw == Uncommented(raw, false)
    {
      var c, s := raw[i], raw[i..];
      CommentStep(raw, i, quoted);
      if c == '\\' && quoted {
        i := i + 2;
        continue;
      }
      if c == '"' {
        quoted := !quoted;
      } else if c == '#' && !quoted {
        return raw[..i];
      }
      i := i + 1;
    }
    if i == |raw| { assert raw[..i] == raw && raw[i..] == ""; }
    r := raw;
  }

  lemma CommentStep(raw: string, i: nat, quoted: bool)
    requires i < |raw|
    ensures var u := raw[..i] + Uncommented(raw[i..], quoted);
      if raw[i] == '\\' && quoted then
        (if i + 2 <= |raw| then u == raw[..i + 2] + Uncommented(raw[i + 2..], true) else u == raw)
      else if raw[i] == '#' && !quoted then u == raw[..i]
      else u == raw[..i + 1] + Uncommented(raw[i + 1..], if raw[i] == '"' then !quoted else quoted)
  {
    var s := raw[i..];
    assert s[0] == raw[i] && s[1..] == raw[i + 1..] && raw[..i + 1] == raw[..i] + [raw[i]];
    if i + 2 <= |raw| { assert s[2..] == raw[i + 2..] && raw[..i] + s[..2] == raw[..i + 2]; }
    if i + 1 == |raw| { assert raw[..i] + s == raw; }
  }

  predicate NoMarks(s: string) { forall i :: 0 <= i < |s| ==> s[i] != '#' && s[i] != '"' }

  lemma {:induction false} UncommentedPlain(a: string, b: string)
    requires NoMarks(a)
    ensures Uncommented(a + b, false) == a + Uncommented(b, false)
    decreases |a|
  {
    if a == "" {
      assert a + b == b;
    } else {
      assert (a + b)[0] == a[0] && (a + b)[1..] == a[1..] + b;
      UncommentedPlain(a[1..], b);
      assert [a[0]] + (a[1..] + Uncommented(b, false)) == a + Uncommented(b, false);
    }
  }

  lemma QuotedStep(c: char, y: string)
    ensures Uncommented(Escaped(c, '"') + y, true) == Escaped(c, '"') + Uncommented(y, true)
  {
    var x := Escaped(c, '"');
    var s := x + y;
    assert s[0] == x[0] && s[|x|..] == y;
    if |x| == 2 { assert s[1] == x[1] && s[..2] == x; }
  }

  /** A `#` inside a quoted token is no comment. */
  lemma {:induction false} UncommentedQuoted(v: string, b: string)
    ensures Uncommented(Escape(v, '"') + "\"" + b, true) == Escape(v, '"') + "\"" + Uncommented(b, false)
  {
    if v == "" {
      var s := "\"" + b;
      assert "" + "\"" + b == s && s[1..] == b;
    } else {
      hide Escape, Uncommented, Escaped;
      UncommentedQuoted(v[1..], b);
      EscapeThen(v, b);
      EscapeThen(v, Uncommented(b, false));
      QuotedStep(v[0], Escape(v[1..], '"') + "\"" + b);
    }
  }
}
