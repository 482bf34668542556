/** Set values as text (`encode_value` and `decode_value` of formats/xvec.py). */
module XvecValues {
  import opened Text
  import opened Stimulus
  import opened Wrap

  // ---- numerals --------------------------------------------------------------------------------------

  datatype Radix = Binary | Hex | Ten

  function Size(r: Radix): nat { match r case Binary => 2 case Hex => 16 case Ten => 10 }

  function Times(r: Radix, n: nat): nat { match r case Binary => 2 * n case Hex => 16 * n case Ten => 10 * n }

  /** Everything but the last digit, and the last digit. */
  function Front(n: nat, r: Radix): nat { match r case Binary => n / 2 case Hex => n / 16 case Ten => n / 10 }

  function Last(n: nat, r: Radix): nat { match r case Binary => n % 2 case Hex => n % 16 case Ten => n % 10 }

  function Digit(d: nat): char
    requires d < 16
  {
    if d < 10 then '0' + d as char else 'a' + (d - 10) as char
  }

  function DigitOf(c: char): nat {
    if '0' <= c <= '9' then (c - '0') as nat else if 'a' <= c <= 'f' then (c - 'a') as nat + 10 else 16
  }

  predicate Numeral(s: string, r: Radix) { s != "" && forall i :: 0 <= i < |s| ==> DigitOf(s[i]) < Size(r) }

  lemma Split(n: nat, r: Radix)
    ensures n == Times(r, Front(n, r)) + Last(n, r) && Last(n, r) < Size(r) && (n >= Size(r) ==> Front(n, r) < n)
  {}

  /** The numeral of `n`, without leading zeros. */
  function Show(n: nat, r: Radix): (s: string)
    ensures Numeral(s, r)
    decreases n
  {
    Split(n, r);
    if n < Size(r) then [Digit(n)] else Show(Front(n, r), r) + [Digit(Last(n, r))]
  }

  function Value(s: string, r: Radix): nat {
    if s == "" then 0 else Times(r, Value(s[..|s| - 1], r)) + DigitOf(s[|s| - 1])
  }

  lemma ValueMore(t: string, c: char, r: Radix)
    ensures Value(t + [c], r) == Times(r, Value(t, r)) + DigitOf(c)
  {
    var s := t + [c];
    assert s[..|s| - 1] == t && s[|s| - 1] == c;
  }

  lemma DigitBack(d: nat)
    requires d < 16
    ensures DigitOf(Digit(d)) == d
  {}

  lemma {:induction false} ValueOfShow(n: nat, r: Radix)
    ensures Value(Show(n, r), r) == n
    decreases n
  {
    hide Digit, DigitOf, Value, Numeral;
    Split(n, r);
    DigitBack(Last(n, r));
    if n < Size(r) {
      ValueMore("", Digit(n), r);
      NoDigits(r);
      assert "" + [Digit(n)] == [Digit(n)];
    } else {
      ValueOfShow(Front(n, r), r);
      ValueMore(Show(Front(n, r), r), Digit(Last(n, r)), r);
    }
  }

  lemma NoDigits(r: Radix)
    ensures Value("", r) == 0
  {}

  // ---- bits ------------------------------------------------------------------------------------------

  function CharOf(l: Logic): char { match l case L0 => '0' case L1 => '1' case LX => 'x' case LZ => 'z' }

  function BitOf(c: char): Option<Logic> {
    if c == '0' then Some(L0) else if c == '1' then Some(L1) else if c == 'x' then Some(LX) else if c == 'z' then Some(LZ) else None
  }

  function Chars(v: seq<Logic>): string { if v == [] then "" else Chars(v[..|v| - 1]) + [CharOf(v[|v| - 1])] }

  function Bits(s: string): Option<seq<Logic>> {
    if s == "" then Some([]) else
    var rest, last := Bits(s[..|s| - 1]), BitOf(s[|s| - 1]);
    if rest.None? || last.None? then None else Some(rest.value + [last.value])
  }

  lemma {:induction false} BitsOfChars(v: seq<Logic>)
    ensures Bits(Chars(v)) == Some(v) && |Chars(v)| == |v| && All(Chars(v), Solid)
  {
    if v != [] {
      BitsOfChars(v[..|v| - 1]);
      var s := Chars(v);
      assert s[..|s| - 1] == Chars(v[..|v| - 1]) && v == v[..|v| - 1] + [v[|v| - 1]];
    }
  }

  predicate Defined(v: seq<Logic>) { forall i :: 0 <= i < |v| ==> v[i] == L0 || v[i] == L1 }

  /** `int(bits, 2)`. */
  function NatOf(v: seq<Logic>): nat { Value(Chars(v), Binary) }

  function Zeros(n: nat): string { if n == 0 then "" else Zeros(n - 1) + "0" }

  function Power2(w: nat): nat { if w == 0 then 1 else 2 * Power2(w - 1) }

  // ---- encode and decode -----------------------------------------------------------------------------

  function Encode(v: seq<Logic>): string {
    if !Defined(v) then "0b" + Chars(v) else if |v| == 1 then [CharOf(v[0])] else "0x" + Show(NatOf(v), Hex)
  }

  function Lower(s: string): string {
    if s == "" then "" else [if 'A' <= s[0] <= 'Z' then s[0] - 'A' + 'a' else s[0]] + Lower(s[1..])
  }

  predicate Decimals(s: string) { s != "" && All(s, Digits) }

  /** The binary digits that a text denotes; None when it is no value. */
  function Denoted(t: string): Option<string> {
    if "0b" <= t then (if t[2..] == "" || Bits(t[2..]).None? then None else Some(t[2..]))
    else if "0x" <= t then (if Numeral(t[2..], Hex) then Some(Show(Value(t[2..], Hex), Binary)) else None)
    else if Decimals(t) then Some(Show(Value(t, Ten), Binary))
    else None
  }

  predicate AllZero(s: string) { forall i :: 0 <= i < |s| ==> s[i] == '0' }

  /** The last `width` digits, or more zeros in front; None when a digit other than 0 would be cut off. */
  function Fitted(bits: string, width: nat): Option<string> {
    if |bits| <= width then Some(Zeros(width - |bits|) + bits)
    else if AllZero(bits[..|bits| - width]) then Some(bits[|bits| - width..])
    else None
  }

  function Decode(text: string, width: nat): Option<seq<Logic>> {
    var bits := Denoted(Lower(text));
    if bits.None? then None else
    var fitted := Fitted(bits.value, width);
    if fitted.None? then None else Bits(fitted.value)
  }

  // ---- the round trip --------------------------------------------------------------------------------

  lemma {:induction false} LowerStays(s: string)
    requires forall i :: 0 <= i < |s| ==> !('A' <= s[i] <= 'Z')
    ensures Lower(s) == s
  {
    if s != "" {
      LowerStays(s[1..]);
      assert s == [s[0]] + s[1..];
    }
  }

  lemma NatMore(w: seq<Logic>, l: Logic)
    requires l == L0 || l == L1
    ensures NatOf(w + [l]) == 2 * NatOf(w) + (if l == L1 then 1 else 0) && Chars(w + [l]) == Chars(w) + [CharOf(l)]
  {
    var v := w + [l];
    assert v[..|v| - 1] == w && v[|v| - 1] == l;
    ValueMore(Chars(w), CharOf(l), Binary);
  }

  lemma ShowBinary(n: nat, d: nat)
    requires d < 2
    ensures Show(2 * n + d, Binary) == if n == 0 then [Digit(d)] else Show(n, Binary) + [Digit(d)]
  {
    assert (2 * n + d) / 2 == n && (2 * n + d) % 2 == d;
  }

  /** The numeral of a value of defined bits, with zeros in front, is the value. */
  lemma {:induction false} PaddedNumeral(v: seq<Logic>)
    requires Defined(v) && v != []
    ensures var s := Show(NatOf(v), Binary); |s| <= |v| && Zeros(|v| - |s|) + s == Chars(v)
  {
    hide Show, NatOf, Chars;
    var w, b := v[..|v| - 1], v[|v| - 1];
    assert v == w + [b];
    NatMore(w, b);
    var d := if b == L1 then 1 else 0;
    ShowBinary(NatOf(w), d);
    assert CharOf(b) == Digit(d);
    if w == [] {
      NatEmpty();
      assert Zeros(0) + [Digit(d)] == [Digit(d)] == "" + [Digit(d)];
    } else {
      PaddedNumeral(w);
      var s := Show(NatOf(w), Binary);
      if NatOf(w) == 0 {
        ShowBinary(0, 0);
        assert Zeros(|w| - 1) + "0" == Zeros(|w|);
      } else {
        assert Zeros(|w| - |s|) + (s + [Digit(d)]) == Zeros(|w| - |s|) + s + [Digit(d)];
      }
    }
  }

  lemma NatEmpty()
    ensures NatOf([]) == 0 && Chars([]) == ""
  {}

  lemma NotUpper(s: string, r: Radix)
    requires Numeral(s, r)
    ensures forall i :: 0 <= i < |s| ==> !('A' <= s[i] <= 'Z')
  {}

  lemma {:induction false} CharsLower(v: seq<Logic>)
    ensures forall i :: 0 <= i < |Chars(v)| ==> !('A' <= Chars(v)[i] <= 'Z')
  {
    if v != [] { CharsLower(v[..|v| - 1]); }
  }

  /** A value of any width reads back from its text. */
  lemma ValueBack(v: seq<Logic>)
    requires v != []
    ensures Decode(Encode(v), |v|) == Some(v)
  {
    hide Show, Value, Bits, Chars, Lower;
    var t := Encode(v);
    BitsOfChars(v);
    if !Defined(v) {
      CharsLower(v);
      LowerStays(t);
      assert t[2..] == Chars(v) && "0b" <= t;
      assert Zeros(0) + Chars(v) == Chars(v);
    } else if |v| == 1 {
      OneBit(v);
    } else {
      var n := NatOf(v);
      NotUpper(Show(n, Hex), Hex);
      LowerStays(t);
      assert t[2..] == Show(n, Hex) && "0x" <= t && t[1] == 'x';
      ValueOfShow(n, Hex);
      PaddedNumeral(v);
    }
  }

  lemma OneBit(v: seq<Logic>)
    requires |v| == 1 && Defined(v)
    ensures Decode([CharOf(v[0])], 1) == Some(v)
  {
    var c := CharOf(v[0]);
    assert Lower([c]) == [c];
    ShowBinary(0, DigitOf(c));
    ValueMore("", c, Ten);
    assert "" + [c] == [c] && Zeros(0) + [c] == [c];
    NatMore([], v[0]);
    BitsOfChars(v);
    assert [] + [v[0]] == v && Chars([]) == "";
    hide Show, Value, Lower, Bits, Chars;
    assert !("0b" <= [c]) && !("0x" <= [c]) && Denoted([c]) == Some([c]);
  }

  // ---- no silent truncation --------------------------------------------------------------------------

  lemma {:induction false} NumeralBits(s: string)
    requires forall i :: 0 <= i < |s| ==> DigitOf(s[i]) < 2
    ensures Bits(s).Some? && Defined(Bits(s).value) && Chars(Bits(s).value) == s && Value(s, Binary) < Power2(|s|)
  {
    if s != "" {
      NumeralBits(s[..|s| - 1]);
      var v := Bits(s).value;
      assert v[..|v| - 1] == Bits(s[..|s| - 1]).value;
      assert s == s[..|s| - 1] + [s[|s| - 1]];
    }
  }

  lemma {:induction false} LeadingZeros(k: nat, s: string)
    ensures Value(Zeros(k) + s, Binary) == Value(s, Binary) && |Zeros(k)| == k && AllZero(Zeros(k))
    decreases k + |s|
  {
    var t := Zeros(k) + s;
    if s == "" {
      assert t == Zeros(k);
      if k > 0 {
        LeadingZeros(k - 1, "");
        assert Zeros(k - 1) + "" == Zeros(k - 1) && Zeros(k)[..k - 1] == Zeros(k - 1);
      }
    } else {
      LeadingZeros(k, s[..|s| - 1]);
      assert t[..|t| - 1] == Zeros(k) + s[..|s| - 1];
    }
  }

  /** The numeral of `n` has as many digits as `n` needs. */
  lemma {:induction false} ShowFits(n: nat, w: nat)
    ensures |Show(n, Binary)| <= w <==> w > 0 && n < Power2(w)
    ensures n > 0 ==> Show(n, Binary)[0] == '1'
  {
    if n >= 2 {
      ShowFits(n / 2, if w > 0 then w - 1 else 0);
    } else if w > 0 {
      PowerPositive(w - 1);
    }
  }

  lemma {:induction false} PowerPositive(w: nat)
    ensures Power2(w) > 0
  {
    if w > 0 { PowerPositive(w - 1); }
  }

  /** A hexadecimal or decimal text is accepted exactly when its number fits, and means that number. */
  lemma NumberExact(text: string, width: nat, n: nat)
    requires width > 0 && Denoted(Lower(text)) == Some(Show(n, Binary))
    ensures Decode(text, width).Some? <==> n < Power2(width)
    ensures Decode(text, width).Some? ==> |Decode(text, width).value| == width && NatOf(Decode(text, width).value) == n
  {
    hide Lower, Denoted, Show, Bits, Value;
    var s := Show(n, Binary);
    ShowFits(n, width);
    ValueOfShow(n, Binary);
    if |s| <= width {
      LeadingZeros(width - |s|, s);
      NumeralBits(Zeros(width - |s|) + s);
      BitsOfChars(Bits(Zeros(width - |s|) + s).value);
    } else {
      var cut := s[..|s| - width];
      ShowFits(n, 1);
      assert cut[0] == s[0];
      PowerPositive(width);
    }
  }
}
