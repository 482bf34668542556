/** The 128-bit operation words of the vector testbench (stimcompile.py): fields, packing and the
    image of a list of words. */
module Words {
  import opened Sorting

  const T64 := 0x1_0000_0000_0000_0000
  const V32 := 0x1_0000_0000
  const I24 := 0x100_0000

  const SET := 1
  const EDGE := 2
  const GLBL := 3
  const SAMPLE := 4
  const CLK_HI := 5
  const CLK_START := 6
  const CLK_STOP := 7
  const END := 15

  datatype Word = Word(op: int, idx: int, val: int, t: int)

  function WordTime(w: Word): int { w.t }

  /** The fields fit; `_w` refuses a word whose index, value or time does not. */
  predicate Fits(w: Word) { 0 <= w.op < 256 && 0 <= w.idx < I24 && 0 <= w.val < V32 && 0 <= w.t < T64 }

  function Pack(w: Word): int { ((w.op * I24 + w.idx) * V32 + w.val) * T64 + w.t }

  /** The fields as the testbench slices them. */
  function Unpack(x: int): Word {
    Word(x / T64 / V32 / I24, x / T64 / V32 % I24, x / T64 % V32, x % T64)
  }

  function ImageTime(x: int): int { x % T64 }

  lemma Field(hi: int, lo: int, m: int)
    requires m > 0 && 0 <= lo < m
    ensures (hi * m + lo) / m == hi && (hi * m + lo) % m == lo
  {
    var q, r := (hi * m + lo) / m, (hi * m + lo) % m;
    assert hi * m + lo == q * m + r;
    assert (q - hi) * m == q * m - hi * m;
    Multiple(q - hi, m, lo - r);
  }

  lemma Multiple(d: int, m: int, x: int)
    requires m > 0 && d * m == x && -m < x < m
    ensures d == 0
  {
    if d >= 1 { AtLeast(d, m); } else if d <= -1 { AtLeast(-d, m); }
  }

  lemma AtLeast(d: int, m: int)
    requires m > 0 && d >= 1
    ensures d * m >= m
  {}

  /** A word reads back field by field. */
  lemma UnpackPack(w: Word)
    requires Fits(w)
    ensures Unpack(Pack(w)) == w
  {
    Field((w.op * I24 + w.idx) * V32 + w.val, w.t, T64);
    Field(w.op * I24 + w.idx, w.val, V32);
    Field(w.op, w.idx, I24);
  }

  function Image(ws: seq<Word>): seq<int> {
    if ws == [] then [] else [Pack(ws[0])] + Image(ws[1..])
  }

  function Decoded(xs: seq<int>): seq<Word> {
    if xs == [] then [] else [Unpack(xs[0])] + Decoded(xs[1..])
  }

  lemma {:induction false} InsertDecoded(x: int, xs: seq<int>)
    ensures Decoded(Insert(x, xs, ImageTime)) == Insert(Unpack(x), Decoded(xs), WordTime)
  {
    if xs != [] && ImageTime(x) > ImageTime(xs[0]) {
      InsertDecoded(x, xs[1..]);
      var r := [xs[0]] + Insert(x, xs[1..], ImageTime);
      assert r[1..] == Insert(x, xs[1..], ImageTime);
      assert Decoded(xs)[1..] == Decoded(xs[1..]);
    } else {
      assert ([x] + xs)[1..] == xs;
    }
  }

  /** Sorting the image by its low 64 bits sorts the words by time, stably. */
  lemma {:induction false} SortedImage(ws: seq<Word>)
    requires forall w | w in ws :: Fits(w)
    ensures Decoded(Sort(Image(ws), ImageTime)) == Sort(ws, WordTime)
  {
    if ws != [] {
      assert ws[0] in ws;
      SortedImage(ws[1..]);
      var img := Image(ws);
      assert img[1..] == Image(ws[1..]) && img[0] == Pack(ws[0]);
      InsertDecoded(img[0], Sort(img[1..], ImageTime));
      UnpackPack(ws[0]);
    }
  }
}
