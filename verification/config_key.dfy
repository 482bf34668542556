/** The name of a configuration (`config_key` of verilatorize/equiv.py): the sorted `NAME=value` pairs of
    its attributes, escaped and joined. Two configurations never share a key. */
module ConfigKey {
  import opened Text

  /** `_esc`: three replacements in turn. */
  function Escape(v: string): string { Replace(Replace(Replace(v, '\\', "\\\\"), ',', "\\,"), '=', "\\=") }

  function Pair(k: string, v: string): string { Escape(k) + "=" + Escape(v) }

  function Pairs(ks: seq<string>, attrs: map<string, string>): seq<string>
    requires forall k | k in ks :: k in attrs
  {
    seq(|ks|, i requires 0 <= i < |ks| => Pair(ks[i], attrs[ks[i]]))
  }

  ghost function Key(attrs: map<string, string>): string {
    if attrs == map[] then "default" else Join(",", Pairs(Sorted(attrs.Keys), attrs))
  }

  // ---- escaping --------------------------------------------------------------------------------------

  predicate Special(c: char) { c == '\\' || c == ',' || c == '=' }

  function Escaped(c: char): string { if Special(c) then ['\\', c] else [c] }

  /** The three passes escape every special character once. */
  lemma EscapeFirst(v: string)
    requires v != ""
    ensures Escape(v) == Escaped(v[0]) + Escape(v[1..])
  {
    var a := Replace(v, '\\', "\\\\");
    var x, y := if v[0] == '\\' then "\\\\" else [v[0]], Replace(v[1..], '\\', "\\\\");
    ReplaceJoin(x, y, ',', "\\,");
    ReplaceJoin(Replace(x, ',', "\\,"), Replace(y, ',', "\\,"), '=', "\\=");
    ReplaceOf(x, ',', "\\,");
    ReplaceOf(Replace(x, ',', "\\,"), '=', "\\=");
  }

  /** What may follow an escaped name or value: nothing, or a separator. */
  predicate Ends(t: string) { t == "" || t[0] == ',' || t[0] == '=' }

  /** An escaped string ends where the first separator stands. */
  lemma {:induction false} EscapeUnique(a: string, b: string, t: string, u: string)
    requires Ends(t) && Ends(u) && Escape(a) + t == Escape(b) + u
    ensures a == b && t == u
  {
    hide Escape, Escaped;
    EscapeBegins(a, t);
    EscapeBegins(b, u);
    if a != "" && b != "" {
      Heads(Escaped(a[0]), Escape(a[1..]) + t, Escaped(b[0]), Escape(b[1..]) + u);
      EscapeUnique(a[1..], b[1..], t, u);
      SameHead(a, b);
    }
  }

  lemma EscapeBegins(a: string, t: string)
    ensures a == "" ==> Escape(a) + t == t
    ensures a != "" ==> Escape(a) + t == Escaped(a[0]) + (Escape(a[1..]) + t) && !Ends(Escape(a) + t)
  {
    if a == "" {
      assert "" + t == t;
    } else {
      hide Escape;
      EscapeFirst(a);
      var x := Escaped(a[0]);
      assert x + (Escape(a[1..]) + t) == Escape(a) + t;
      assert (x + (Escape(a[1..]) + t))[0] == x[0];
    }
  }

  lemma SameHead(a: string, b: string)
    requires a != "" && b != "" && Escaped(a[0]) == Escaped(b[0]) && a[1..] == b[1..]
    ensures a == b
  {
    var x, y := Escaped(a[0]), Escaped(b[0]);
    assert a[0] == x[|x| - 1] && b[0] == y[|y| - 1];
    assert a == [a[0]] + a[1..] && b == [b[0]] + b[1..];
  }

  /** Two escaped characters that begin the same text are the same. */
  lemma Heads(x: string, s: string, y: string, t: string)
    requires x + s == y + t && exists c, d :: x == Escaped(c) && y == Escaped(d)
    ensures x == y && s == t
  {
    var r := x + s;
    assert r[0] == x[0] && r[0] == y[0];
    if |x| == 2 && |y| == 2 { assert r[1] == x[1] && r[1] == y[1]; }
    assert s == r[|x|..] && t == r[|y|..];
  }

  // ---- keys ------------------------------------------------------------------------------------------

  /** The text of the pairs tells the pairs. */
  lemma {:induction false} PairsUnique(ks: seq<string>, a: map<string, string>, ls: seq<string>, b: map<string, string>)
    requires (forall k | k in ks :: k in a) && (forall l | l in ls :: l in b) && ks != [] && ls != []
    requires Join(",", Pairs(ks, a)) == Join(",", Pairs(ls, b))
    ensures ks == ls && forall k | k in ks :: a[k] == b[k]
    decreases |ks|
  {
    HasFirst(ks);
    HasFirst(ls);
    var t, u := Tail(ks, a), Tail(ls, b);
    Unfold(ks, a);
    Unfold(ls, b);
    EscapeUnique(ks[0], ls[0], "=" + (Escape(a[ks[0]]) + t), "=" + (Escape(b[ls[0]]) + u));
    var v, w := Escape(a[ks[0]]) + t, Escape(b[ls[0]]) + u;
    assert v == ("=" + v)[1..] && w == ("=" + w)[1..];
    EscapeUnique(a[ks[0]], b[ls[0]], t, u);
    assert ks == [ks[0]] + ks[1..] && ls == [ls[0]] + ls[1..];
    if |ks| > 1 {
      assert |ls| > 1;
      assert t[1..] == u[1..];
      PairsUnique(ks[1..], a, ls[1..], b);
    }
  }

  /** What follows the first pair. */
  function Tail(ks: seq<string>, a: map<string, string>): (t: string)
    requires ks != [] && forall k | k in ks :: k in a
    ensures Ends(t) && (t == "" <==> |ks| == 1) && (t != "" ==> t[1..] == Join(",", Pairs(ks[1..], a)))
  {
    HasFirst(ks);
    if |ks| == 1 then "" else "," + Join(",", Pairs(ks[1..], a))
  }

  lemma Unfold(ks: seq<string>, a: map<string, string>)
    requires ks != [] && forall k | k in ks :: k in a
    ensures Join(",", Pairs(ks, a)) == Escape(ks[0]) + ("=" + (Escape(a[ks[0]]) + Tail(ks, a)))
  {
    HasFirst(ks);
    assert Pairs(ks, a)[1..] == Pairs(ks[1..], a);
    var k, v := Escape(ks[0]), Escape(a[ks[0]]);
    assert k + "=" + v + "" == k + ("=" + (v + ""));
    if |ks| > 1 {
      var r := Join(",", Pairs(ks[1..], a));
      assert k + "=" + v + "," + r == k + ("=" + (v + ("," + r)));
    }
  }

  /** No configuration with attributes is called `default`. */
  lemma NotDefault(attrs: map<string, string>)
    requires attrs != map[]
    ensures Key(attrs) != "default"
  {
    var ks := Sorted(attrs.Keys);
    SortedSome(attrs.Keys);
    Unfold(ks, attrs);
    var x, t := Escape(ks[0]), Escape(attrs[ks[0]]) + Tail(ks, attrs);
    assert (x + ("=" + t))[|x|] == '=';
    assert '=' !in "default";
  }

  lemma SortedSome(s: set<string>)
    requires s != {}
    ensures Sorted(s) != []
  {
    var x :| x in s;
    assert x in Sorted(s);
  }

  /** Configurations share a key exactly when they are the same. */
  lemma KeyInjective(a: map<string, string>, b: map<string, string>)
    ensures Key(a) == Key(b) <==> a == b
  {
    if Key(a) == Key(b) {
      if a != map[] { NotDefault(a); }
      if b != map[] { NotDefault(b); }
      if a != map[] && b != map[] {
        SortedSome(a.Keys);
        SortedSome(b.Keys);
        PairsUnique(Sorted(a.Keys), a, Sorted(b.Keys), b);
        assert forall k :: k in a.Keys <==> k in Sorted(a.Keys);
        assert forall k :: k in b.Keys <==> k in Sorted(b.Keys);
        assert a.Keys == b.Keys;
      }
    }
  }
}
