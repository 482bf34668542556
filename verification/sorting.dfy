/** Stable sorting by an integer key, and the items of one key in their order. */
module Sorting {

  predicate SortedBy<T>(s: seq<T>, key: T -> int) {
    forall i, j :: 0 <= i < j < |s| ==> key(s[i]) <= key(s[j])
  }

  /** Before every item whose key is not smaller. */
  function Insert<T>(x: T, s: seq<T>, key: T -> int): seq<T> {
    if s == [] || key(x) <= key(s[0]) then [x] + s else [s[0]] + Insert(x, s[1..], key)
  }

  /** A stable sort. */
  function Sort<T>(s: seq<T>, key: T -> int): seq<T> {
    if s == [] then [] else Insert(s[0], Sort(s[1..], key), key)
  }

  /** The items with a given key, in order. */
  function With<T>(s: seq<T>, k: int, key: T -> int): seq<T> {
    if s == [] then [] else (if key(s[0]) == k then [s[0]] else []) + With(s[1..], k, key)
  }

  lemma {:induction false} InsertItems<T>(x: T, s: seq<T>, key: T -> int)
    ensures multiset(Insert(x, s, key)) == multiset{x} + multiset(s)
  {
    if !(s == [] || key(x) <= key(s[0])) {
      InsertItems(x, s[1..], key);
      assert s == [s[0]] + s[1..];
    } else {
      assert multiset([x] + s) == multiset{x} + multiset(s);
    }
  }

  lemma {:induction false} InsertSorted<T>(x: T, s: seq<T>, key: T -> int)
    requires SortedBy(s, key)
    ensures SortedBy(Insert(x, s, key), key)
  {
    if !(s == [] || key(x) <= key(s[0])) {
      InsertSorted(x, s[1..], key);
      var r := Insert(x, s[1..], key);
      InsertItems(x, s[1..], key);
      forall j | 0 <= j < |r|
        ensures key(s[0]) <= key(r[j])
      {
        assert r[j] in multiset(r);
        if r[j] in s[1..] {
          var i :| 0 <= i < |s[1..]| && s[1..][i] == r[j];
          assert s[i + 1] == r[j];
        } else {
          assert r[j] == x;
        }
      }
    }
  }

  lemma {:induction false} SortSorted<T>(s: seq<T>, key: T -> int)
    ensures SortedBy(Sort(s, key), key)
    ensures multiset(Sort(s, key)) == multiset(s)
  {
    if s != [] {
      SortSorted(s[1..], key);
      InsertSorted(s[0], Sort(s[1..], key), key);
      InsertItems(s[0], Sort(s[1..], key), key);
      assert s == [s[0]] + s[1..];
    }
  }

  lemma SortIn<T>(s: seq<T>, x: T, key: T -> int)
    requires x in Sort(s, key)
    ensures x in s
  {
    SortSorted(s, key);
    assert x in multiset(Sort(s, key)) && x in multiset(s);
  }

  lemma {:induction false} WithInsert<T>(x: T, s: seq<T>, k: int, key: T -> int)
    requires SortedBy(s, key)
    ensures With(Insert(x, s, key), k, key) == (if key(x) == k then [x] else []) + With(s, k, key)
  {
    if s == [] || key(x) <= key(s[0]) {
      assert ([x] + s)[1..] == s && ([x] + s)[0] == x;
    } else {
      var r := Insert(x, s[1..], key);
      WithInsert(x, s[1..], k, key);
      assert Insert(x, s, key) == [s[0]] + r;
      hide Insert;
      assert ([s[0]] + r)[1..] == r && ([s[0]] + r)[0] == s[0];
      HeadWith([s[0]] + r, k, key);
      HeadWith(s, k, key);
      hide With;
      var w := With(s[1..], k, key);
      assert [] + w == w && [] + [s[0]] + w == [s[0]] + w;
    }
  }

  /** Sorting keeps the order of the items of each key. */
  lemma {:induction false} WithSort<T>(s: seq<T>, k: int, key: T -> int)
    ensures With(Sort(s, key), k, key) == With(s, k, key)
  {
    if s != [] {
      SortSorted(s[1..], key);
      WithInsert(s[0], Sort(s[1..], key), k, key);
      WithSort(s[1..], k, key);
    }
  }

  lemma {:induction false} WithJoin<T>(a: seq<T>, b: seq<T>, k: int, key: T -> int)
    ensures With(a + b, k, key) == With(a, k, key) + With(b, k, key)
  {
    if a == [] {
      assert a + b == b;
    } else {
      assert (a + b)[1..] == a[1..] + b && (a + b)[0] == a[0];
      WithJoin(a[1..], b, k, key);
      var head := if key(a[0]) == k then [a[0]] else [];
      var x, y := With(a[1..], k, key), With(b, k, key);
      assert head + (x + y) == head + x + y;
    }
  }

  lemma {:induction false} WithIn<T>(s: seq<T>, k: int, key: T -> int)
    ensures forall x :: x in With(s, k, key) ==> x in s && key(x) == k
    ensures forall x :: x in s && key(x) == k ==> x in With(s, k, key)
  {
    if s != [] {
      WithIn(s[1..], k, key);
      assert s == [s[0]] + s[1..];
    }
  }

  lemma {:induction false} WithNone<T>(s: seq<T>, k: int, key: T -> int)
    requires forall x | x in s :: key(x) != k
    ensures With(s, k, key) == []
  {
    if s != [] {
      assert s[0] in s;
      WithNone(s[1..], k, key);
    }
  }

  lemma {:induction false} WithAll<T>(s: seq<T>, k: int, key: T -> int)
    requires forall x | x in s :: key(x) == k
    ensures With(s, k, key) == s
  {
    if s != [] {
      assert s[0] in s;
      WithAll(s[1..], k, key);
      assert s == [s[0]] + s[1..];
    }
  }

  /** The items of a key not below `k`, in order. */
  function From<T>(s: seq<T>, k: int, key: T -> int): seq<T> {
    if s == [] then [] else (if key(s[0]) >= k then [s[0]] else []) + From(s[1..], k, key)
  }

  lemma {:induction false} FromIn<T>(s: seq<T>, k: int, key: T -> int)
    ensures forall x :: x in From(s, k, key) ==> x in s && key(x) >= k
    ensures forall x :: x in s && key(x) >= k ==> x in From(s, k, key)
  {
    if s != [] {
      FromIn(s[1..], k, key);
      assert s == [s[0]] + s[1..];
    }
  }

  lemma SortedHead<T>(s: seq<T>, key: T -> int)
    requires SortedBy(s, key) && s != []
    ensures SortedBy(s[1..], key) && forall x | x in s[1..] :: key(s[0]) <= key(x)
  {
    forall x | x in s[1..]
      ensures key(s[0]) <= key(x)
    {
      var i :| 0 <= i < |s[1..]| && s[1..][i] == x;
      assert s[i + 1] == x;
    }
  }

  lemma SortedCons<T>(x: T, s: seq<T>, key: T -> int)
    requires SortedBy(s, key) && forall y | y in s :: key(x) <= key(y)
    ensures SortedBy([x] + s, key)
  {}

  /** A sorted sequence is its items of `k`, when none is smaller, followed by the larger ones. */
  lemma {:induction false} FromSplit<T>(s: seq<T>, k: int, key: T -> int)
    requires SortedBy(s, key)
    ensures From(s, k, key) == With(s, k, key) + From(s, k + 1, key)
  {
    hide SortedBy, With, From;
    if s == [] {
      Nothing<T>(k, key);
    } else {
      var rest := s[1..];
      SortedHead(s, key);
      FromSplit(rest, k, key);
      HeadWith(s, k, key);
      HeadFrom(s, k, key);
      HeadFrom(s, k + 1, key);
      var w, f := With(rest, k, key), From(rest, k + 1, key);
      if key(s[0]) > k {
        WithNone(rest, k, key);
        assert [] + [] + f == f && [s[0]] + f == [] + ([s[0]] + f);
      } else if key(s[0]) == k {
        assert [s[0]] + (w + f) == [s[0]] + w + f;
      }
    }
  }

  lemma Nothing<T>(k: int, key: T -> int)
    ensures From<T>([], k, key) == [] && With<T>([], k, key) == [] && From<T>([], k + 1, key) == []
  {}

  lemma HeadWith<T>(s: seq<T>, k: int, key: T -> int)
    requires s != []
    ensures With(s, k, key) == if key(s[0]) == k then [s[0]] + With(s[1..], k, key) else With(s[1..], k, key)
  {}

  lemma HeadFrom<T>(s: seq<T>, k: int, key: T -> int)
    requires s != []
    ensures From(s, k, key) == if key(s[0]) >= k then [s[0]] + From(s[1..], k, key) else From(s[1..], k, key)
  {}

  lemma {:induction false} FromNone<T>(s: seq<T>, k: int, key: T -> int)
    requires forall x | x in s :: key(x) < k
    ensures From(s, k, key) == []
  {
    if s != [] {
      assert s[0] in s;
      FromNone(s[1..], k, key);
    }
  }

  lemma {:induction false} FromAll<T>(s: seq<T>, k: int, key: T -> int)
    requires forall x | x in s :: key(x) >= k
    ensures From(s, k, key) == s
  {
    if s != [] {
      assert s[0] in s;
      FromAll(s[1..], k, key);
      assert s == [s[0]] + s[1..];
    }
  }

  /** Two items of one key are two items of the sequence. */
  lemma {:induction false} WithTwo<T>(s: seq<T>, k: int, key: T -> int, a: nat, b: nat)
    requires a < b < |With(s, k, key)|
    ensures exists i, j :: 0 <= i < j < |s| && s[i] == With(s, k, key)[a] && s[j] == With(s, k, key)[b]
  {
    var w := With(s[1..], k, key);
    if key(s[0]) == k && a == 0 {
      WithIn(s[1..], k, key);
      var x := w[b - 1];
      assert x in w;
      assert x in s[1..];
      var j :| 0 <= j < |s[1..]| && s[1..][j] == w[b - 1];
      assert s[0] == With(s, k, key)[a] && s[j + 1] == With(s, k, key)[b];
    } else {
      var d := if key(s[0]) == k then 1 else 0;
      WithTwo(s[1..], k, key, a - d, b - d);
      var i, j :| 0 <= i < j < |s[1..]| && s[1..][i] == w[a - d] && s[1..][j] == w[b - d];
      assert s[i + 1] == With(s, k, key)[a] && s[j + 1] == With(s, k, key)[b];
    }
  }
}
