/** The JavaScript number operations the invoicing code applies to text: `parseFloat`,
    `parseInt(_, 10)`, `String(n)` for an integer, `toFixed(2)` and `padStart`.
    Numbers are exact reals and NaN is `None`. */
module Numbers {
  import opened Wrappers
  import opened Text

  predicate IsDigit(c: char) { '0' <= c <= '9' }

  predicate AllDigits(s: string) {
    forall i :: 0 <= i < |s| ==> IsDigit(s[i])
  }

  function DigitValue(c: char): (d: nat)
    requires IsDigit(c)
    ensures d < 10
  {
    c as int - '0' as int
  }

  function Digit(d: nat): (c: char)
    requires d < 10
    ensures IsDigit(c) && DigitValue(c) == d
  {
    ('0' as int + d) as char
  }

  function Pow10(n: nat): (p: nat)
    ensures p >= 1
  {
    if n == 0 then 1 else 10 * Pow10(n - 1)
  }

  /** The value of a string of decimal digits, most significant digit first. */
  function DigitsValue(s: string): (v: nat)
    requires AllDigits(s)
    ensures v < Pow10(|s|)
  {
    if s == [] then 0 else DigitsValue(s[..|s| - 1]) * 10 + DigitValue(s[|s| - 1])
  }

  /** `String(n)`: the decimal digits of n without leading zeros. */
  function NatToString(n: nat): (s: string)
    ensures 1 <= |s| && AllDigits(s)
    ensures DigitsValue(s) == n
    ensures s[0] == '0' ==> n == 0 && s == "0"
  {
    if n < 10 then [Digit(n)]
    else
      var s := NatToString(n / 10) + [Digit(n % 10)];
      assert s[..|s| - 1] == NatToString(n / 10);
      s
  }

  lemma NatToStringInjective(a: nat, b: nat)
    requires NatToString(a) == NatToString(b)
    ensures a == b
  {
  }

  /** Digits split anywhere: the value of a + b is a's value shifted past b's digits. */
  lemma {:induction false} DigitsValueConcat(a: string, b: string)
    requires AllDigits(a) && AllDigits(b)
    ensures AllDigits(a + b)
    ensures DigitsValue(a + b) == DigitsValue(a) * Pow10(|b|) + DigitsValue(b)
    decreases |b|
  {
    if b == [] {
      assert a + b == a;
    } else {
      var b' := b[..|b| - 1];
      var ab := a + b;
      assert ab[..|ab| - 1] == a + b';
      assert ab[|ab| - 1] == b[|b| - 1];
      DigitsValueConcat(a, b');
      var va, vb, p, d := DigitsValue(a), DigitsValue(b'), Pow10(|b'|), DigitValue(b[|b| - 1]);
      assert DigitsValue(ab) == DigitsValue(a + b') * 10 + d;
      assert DigitsValue(b) == vb * 10 + d;
      assert Pow10(|b|) == p * 10;
      MulTenAssociates(va, p);
    }
  }

  lemma MulTenAssociates(a: int, p: int)
    ensures (a * p) * 10 == a * (p * 10)
  {
  }

  function Repeat(c: char, n: nat): (r: string)
    ensures |r| == n && forall i :: 0 <= i < n ==> r[i] == c
  {
    if n == 0 then [] else [c] + Repeat(c, n - 1)
  }

  lemma {:induction false} ZerosValue(n: nat)
    ensures AllDigits(Repeat('0', n)) && DigitsValue(Repeat('0', n)) == 0
  {
    if n > 0 {
      var z := Repeat('0', n);
      assert z[..n - 1] == Repeat('0', n - 1);
      ZerosValue(n - 1);
    }
  }

  /** Leading zeros do not change the value. */
  lemma ZeroPaddedValue(n: nat, s: string)
    requires AllDigits(s)
    ensures AllDigits(Repeat('0', n) + s) && DigitsValue(Repeat('0', n) + s) == DigitsValue(s)
  {
    ZerosValue(n);
    DigitsValueConcat(Repeat('0', n), s);
  }

  /** `s.padStart(width, fill)`. */
  function PadStart(s: string, width: nat, fill: char): (r: string)
    ensures |r| == if |s| < width then width else |s|
    ensures r == Repeat(fill, |r| - |s|) + s
  {
    if |s| >= width then
      assert Repeat(fill, 0) + s == s;
      s
    else Repeat(fill, width - |s|) + s
  }

  /** The longest run of digits that s starts with. */
  function LeadingDigits(s: string): (p: string)
    ensures AllDigits(p) && |p| <= |s| && p == s[..|p|]
    ensures |p| < |s| ==> !IsDigit(s[|p|])
  {
    if s != [] && IsDigit(s[0]) then [s[0]] + LeadingDigits(s[1..]) else []
  }

  /** s without the white space it starts with, as `parseInt` trims it first. */
  function TrimStart(s: string): (r: string)
    ensures |r| <= |s|
    ensures r != [] ==> !IsWhitespace(r[0])
  {
    if s != [] && IsWhitespace(s[0]) then TrimStart(s[1..]) else s
  }

  /** The value of the digits text starts with; NaN when it starts with none. */
  function ParseDigits(u: string): Option<nat> {
    var p := LeadingDigits(u);
    if p == [] then None else Some(DigitsValue(p))
  }

  /** Text with no leading white space: one optional sign, then the digits that follow,
      negated after a '-'. */
  function ParseSigned(w: string): Option<int> {
    if w != [] && w[0] == '-' then
      match ParseDigits(w[1..])
      case Some(v) => Some(-(v as int))
      case None => None
    else if w != [] && w[0] == '+' then ParseDigits(w[1..])
    else ParseDigits(w)
  }

  /** `parseInt(s, 10)`: leading white space is skipped, then one optional sign, then the
      value of the digits that follow, negated after a '-'; NaN when no digit follows. */
  function ParseInt(s: string): Option<int> {
    ParseSigned(TrimStart(s))
  }

  /** `parseInt` gives NaN exactly when no digit follows the leading white space and the
      optional sign, and a negative value only after a '-'. */
  lemma ParseIntIsNaNWhen(s: string)
    ensures var w := TrimStart(s);
      var u := if w != [] && (w[0] == '-' || w[0] == '+') then w[1..] else w;
      (ParseInt(s).None? <==> (u == [] || !IsDigit(u[0])))
      && (ParseInt(s).Some? && ParseInt(s).value < 0 ==> w[0] == '-')
  {
  }

  lemma {:induction false} TrimStartSkips(ws: string, s: string)
    requires IsBlank(ws)
    ensures TrimStart(ws + s) == TrimStart(s)
    decreases |ws|
  {
    if ws != [] {
      assert IsWhitespace(ws[0]) && IsBlank(ws[1..]);
      var t := ws + s;
      assert t[0] == ws[0] && t[1..] == ws[1..] + s;
      assert TrimStart(t) == TrimStart(ws[1..] + s);
      TrimStartSkips(ws[1..], s);
    } else {
      assert ws + s == s;
    }
  }

  /** White space in front of the text does not change what `parseInt` reads. */
  lemma ParseIntSkipsWhitespace(ws: string, s: string)
    requires IsBlank(ws)
    ensures ParseInt(ws + s) == ParseInt(s)
  {
    TrimStartSkips(ws, s);
  }

  /** `parseInt` reads a digit string as its value, and a '-' before it as the negated
      value. */
  lemma ParseIntOfDigits(s: string)
    requires 0 < |s| && AllDigits(s)
    ensures ParseInt(s) == Some(DigitsValue(s))
    ensures ParseInt("-" + s) == Some(-(DigitsValue(s) as int))
  {
    LeadingDigitsOfDigits(s);
    UnsignedDigits(s);
    NegatedDigits(s);
  }

  lemma UnsignedDigits(s: string)
    requires 0 < |s| && AllDigits(s) && LeadingDigits(s) == s
    ensures ParseInt(s) == Some(DigitsValue(s))
  {
    assert !IsWhitespace(s[0]);
    assert TrimStart(s) == s;
  }

  lemma NegatedDigits(s: string)
    requires 0 < |s| && AllDigits(s) && LeadingDigits(s) == s
    ensures ParseInt("-" + s) == Some(-(DigitsValue(s) as int))
  {
    var m := "-" + s;
    assert m[0] == '-' && m[1..] == s;
    assert TrimStart(m) == m by {
      assert !IsWhitespace('-');
    }
    assert ParseDigits(m[1..]) == Some(DigitsValue(s));
  }

  /** `String(n)` for an integer: the digits of its magnitude, after a '-' when it is
      negative; `parseInt` reads it back. */
  function IntToString(n: int): (s: string)
    ensures ParseInt(s) == Some(n)
    ensures 0 < |s| && (s[0] == '-' <==> n < 0)
  {
    var d := NatToString(if n < 0 then -n else n);
    ParseIntOfDigits(d);
    if n < 0 then "-" + d else d
  }

  /** Digits read back by `parseInt` give their value. */
  lemma {:induction false} LeadingDigitsOfDigits(s: string)
    requires AllDigits(s)
    ensures LeadingDigits(s) == s
    decreases |s|
  {
    if s != [] { LeadingDigitsOfDigits(s[1..]); }
  }

  /** Index of the first '.' in s, or |s| when there is none. */
  function DotIndex(s: string): (k: nat)
    ensures k <= |s|
    ensures forall i :: 0 <= i < k ==> s[i] != '.'
    ensures k < |s| ==> s[k] == '.'
  {
    if s == [] then 0 else if s[0] == '.' then 0 else 1 + DotIndex(s[1..])
  }

  /** The first '.' of a + "." + b, where a has none, is the one after a. */
  lemma {:induction false} DotIndexAfter(a: string, b: string)
    requires forall i :: 0 <= i < |a| ==> a[i] != '.'
    ensures DotIndex(a + "." + b) == |a|
    decreases |a|
  {
    if a != [] {
      assert (a + "." + b)[1..] == a[1..] + "." + b;
      DotIndexAfter(a[1..], b);
    }
  }

  /** x / 10^n, one decimal place at a time. */
  function Shift(x: real, n: nat): real {
    if n == 0 then x else Shift(x, n - 1) / 10.0
  }

  /** An unsigned decimal literal: digits with at most one '.', at least one digit. */
  function ParseUnsigned(s: string): Option<real> {
    var k := DotIndex(s);
    var whole := s[..k];
    var frac := if k < |s| then s[k + 1..] else "";
    if AllDigits(whole) && AllDigits(frac) && 0 < |whole| + |frac| then
      Some(DigitsValue(whole) as real + Shift(DigitsValue(frac) as real, |frac|))
    else None
  }

  /** `parseFloat(s)` for a plain decimal literal with an optional sign; `None` is NaN. */
  function ParseNumber(s: string): Option<real> {
    if 0 < |s| && (s[0] == '-' || s[0] == '+') then
      match ParseUnsigned(s[1..])
      case Some(v) => Some(if s[0] == '-' then -v else v)
      case None => None
    else ParseUnsigned(s)
  }

  /** `xs.reduce((sum, x) => sum + x, 0)` where NaN is `None`: a single NaN makes the
      sum NaN. */
  function SumOf(xs: seq<Option<real>>): (r: Option<real>)
    ensures r.None? <==> exists i :: 0 <= i < |xs| && xs[i].None?
    decreases |xs|
  {
    if xs == [] then Some(0.0)
    else
      var init := xs[..|xs| - 1];
      assert forall i :: 0 <= i < |init| ==> init[i] == xs[i];
      match (SumOf(init), xs[|xs| - 1])
      case (Some(s), Some(x)) => Some(s + x)
      case _ => None
  }

  /** The sum of numbers, none of them NaN. */
  function Sum(xs: seq<real>): real
    decreases |xs|
  {
    if xs == [] then 0.0 else Sum(xs[..|xs| - 1]) + xs[|xs| - 1]
  }

  /** Without a NaN, the NaN-propagating sum is the plain sum. */
  lemma {:induction false} SumOfNumbers(xs: seq<Option<real>>, ys: seq<real>)
    requires |xs| == |ys| && forall i :: 0 <= i < |xs| ==> xs[i] == Some(ys[i])
    ensures SumOf(xs) == Some(Sum(ys))
    decreases |xs|
  {
    if xs != [] {
      SumOfNumbers(xs[..|xs| - 1], ys[..|ys| - 1]);
    }
  }

  /** `parseFloat(s) || 0`: NaN counts as zero. */
  function OrZero(x: Option<real>): real {
    match x
    case Some(v) => v
    case None => 0.0
  }

  /** The whole number of hundredths toFixed(2) prints for |x|: 100·|x| rounded, halves up. */
  function CentsOf(x: real): nat {
    var m := if x < 0.0 then -x else x;
    (m * 100.0 + 0.5).Floor
  }

  /** x rounded to two decimals, halves away from zero. */
  function SignedCents(x: real): int {
    if x < 0.0 then -(CentsOf(x) as int) else CentsOf(x)
  }

  function Round2(x: real): real {
    SignedCents(x) as real / 100.0
  }

  /** The two-decimal text of a whole number of hundredths. */
  function CentsText(c: nat): string {
    NatToString(c / 100) + "." + TwoDigits(c % 100)
  }

  /** A number below 100 written with exactly two digits. */
  function TwoDigits(m: nat): string
    requires m < 100
  {
    [Digit(m / 10), Digit(m % 10)]
  }

  /** `x.toFixed(2)`: a '-' for a negative x (also when it rounds to zero), the rounded
      magnitude with exactly two decimals; NaN prints as "NaN". */
  function ToFixed2(x: Option<real>): string {
    match x
    case None => "NaN"
    case Some(v) => (if v < 0.0 then "-" else "") + CentsText(CentsOf(v))
  }

  /** `v.toFixed(2)` for a number that is not NaN: it reads back as v rounded to two
      decimals. */
  function FixedNumber(v: real): (r: string)
    ensures ParseNumber(r) == Some(Round2(v))
  {
    ToFixed2NumberRoundTrip(v);
    ToFixed2(Some(v))
  }

  /** Rounding moves a value by at most half a hundredth. */
  lemma Round2Error(x: real)
    ensures -0.005 <= Round2(x) - x <= 0.005
  {
  }

  lemma {:induction false} CentsTextParses(c: nat)
    ensures ParseUnsigned(CentsText(c)) == Some(c as real / 100.0)
  {
    var whole := NatToString(c / 100);
    var frac := TwoDigits(c % 100);
    var s := whole + "." + frac;
    assert s == CentsText(c);
    SplitsAtDot(whole, frac);
    TwoDigitsValue(c % 100);
    ShiftTwo((c % 100) as real);
    CentsSum(c);
  }

  /** "<whole>.<frac>" splits at its only dot. */
  lemma SplitsAtDot(whole: string, frac: string)
    requires AllDigits(whole)
    ensures DotIndex(whole + "." + frac) == |whole|
    ensures (whole + "." + frac)[..|whole|] == whole && (whole + "." + frac)[|whole| + 1..] == frac
  {
    var s := whole + "." + frac;
    assert s[|whole|] == '.';
    assert forall i :: 0 <= i < |whole| ==> s[i] == whole[i];
    DotIndexAt(s, |whole|);
  }

  lemma TwoDigitsValue(m: nat)
    requires m < 100
    ensures AllDigits(TwoDigits(m)) && DigitsValue(TwoDigits(m)) == m
  {
    PairValue(m / 10, m % 10);
  }

  lemma PairValue(a: nat, b: nat)
    requires a < 10 && b < 10
    ensures AllDigits([Digit(a), Digit(b)]) && DigitsValue([Digit(a), Digit(b)]) == 10 * a + b
  {
    var pair := [Digit(a), Digit(b)];
    assert pair[..1] == [Digit(a)];
    assert pair[..1][..0] == [];
  }

  lemma ShiftTwo(x: real)
    ensures Shift(x, 2) == x / 100.0
  {
    assert Shift(x, 1) == x / 10.0;
  }

  lemma CentsSum(c: nat)
    ensures (c / 100) as real + (c % 100) as real / 100.0 == c as real / 100.0
  {
  }

  lemma DotIndexAt(s: string, k: nat)
    requires k < |s| && s[k] == '.'
    requires forall i :: 0 <= i < k ==> s[i] != '.'
    ensures DotIndex(s) == k
  {
    var d := DotIndex(s);
    assert !(d < k) && !(k < d);
  }

  /** `parseFloat(x.toFixed(2))` gives x rounded to two decimals, and NaN stays NaN. */
  lemma ToFixed2RoundTrip(x: Option<real>)
    ensures ParseNumber(ToFixed2(x)) == match x case None => None case Some(v) => Some(Round2(v))
  {
    if x.Some? {
      ToFixed2NumberRoundTrip(x.value);
    }
  }

  lemma ToFixed2NumberRoundTrip(v: real)
    ensures ParseNumber(ToFixed2(Some(v))) == Some(Round2(v))
  {
    CentsTextParses(CentsOf(v));
    CentsTextStartsWithDigit(CentsOf(v));
    if v < 0.0 {
      NegativeRoundTrip(v);
    } else {
      NonNegativeRoundTrip(v);
    }
  }

  lemma NonNegativeRoundTrip(v: real)
    requires 0.0 <= v
    requires ParseUnsigned(CentsText(CentsOf(v))) == Some(CentsOf(v) as real / 100.0)
    requires IsDigit(CentsText(CentsOf(v))[0])
    ensures ParseNumber(ToFixed2(Some(v))) == Some(Round2(v))
  {
    var c := CentsOf(v);
    var t := CentsText(c);
    assert ToFixed2(Some(v)) == "" + t;
    assert "" + t == t;
    UnsignedParse(t);
    assert SignedCents(v) == c;
    assert Round2(v) == c as real / 100.0;
  }

  lemma UnsignedParse(t: string)
    requires 0 < |t| && IsDigit(t[0])
    ensures ParseNumber(t) == ParseUnsigned(t)
  {
  }

  lemma CentsTextStartsWithDigit(c: nat)
    ensures IsDigit(CentsText(c)[0])
  {
    var w := NatToString(c / 100);
    assert CentsText(c)[0] == w[0];
  }

  lemma NegativeRoundTrip(v: real)
    requires v < 0.0
    requires ParseUnsigned(CentsText(CentsOf(v))) == Some(CentsOf(v) as real / 100.0)
    ensures ParseNumber(ToFixed2(Some(v))) == Some(Round2(v))
  {
    var c := CentsOf(v);
    var t := CentsText(c);
    var s := "-" + t;
    assert s == ToFixed2(Some(v));
    assert s[1..] == t;
    SignedParse(s, c as real / 100.0);
  }

  lemma SignedParse(s: string, m: real)
    requires 0 < |s| && s[0] == '-' && ParseUnsigned(s[1..]) == Some(m)
    ensures ParseNumber(s) == Some(-m)
  {
  }

  /** `parseInt` reads back the digits `String(n)` wrote, also after zero padding. */
  lemma PaddedNumberParses(n: nat, width: nat)
    ensures ParseInt(PadStart(NatToString(n), width, '0')) == Some(n)
  {
    var s := NatToString(n);
    var p := PadStart(s, width, '0');
    ZeroPaddedValue(|p| - |s|, s);
    ParseIntOfDigits(p);
  }

  lemma DigitsValueFront(s: string)
    requires AllDigits(s) && 0 < |s|
    ensures DigitsValue(s) == DigitValue(s[0]) * Pow10(|s| - 1) + DigitsValue(s[1..])
  {
    var head, rest := [s[0]], s[1..];
    assert s == head + rest;
    assert DigitsValue(head) == DigitValue(s[0]) by {
      assert head[..0] == [];
    }
    DigitsValueConcat(head, rest);
  }

  lemma MulMonotonic(x: int, y: int, p: int)
    requires 0 <= x <= y && 0 <= p
    ensures x * p <= y * p
  {
  }

  /** Between digit strings of one length, a smaller first digit means a smaller value. */
  lemma FirstDigitDecides(a: string, b: string)
    requires AllDigits(a) && AllDigits(b) && |a| == |b| && 0 < |a| && a[0] < b[0]
    ensures DigitsValue(a) < DigitsValue(b)
  {
    DigitsValueFront(a);
    DigitsValueFront(b);
    LeadingTermDominates(DigitValue(a[0]), DigitValue(b[0]), Pow10(|a| - 1),
                         DigitsValue(a[1..]), DigitsValue(b[1..]));
  }

  lemma LeadingTermDominates(x: nat, y: nat, p: nat, ra: nat, rb: nat)
    requires x < y && ra < p
    ensures x * p + ra < y * p + rb
  {
    MulMonotonic(x + 1, y, p);
  }

  /** For digit strings of one length, the text order (`ORDER BY` on the column) is the
      numeric order. */
  lemma {:induction false} TextOrderIsNumericOrder(a: string, b: string)
    requires AllDigits(a) && AllDigits(b) && |a| == |b|
    ensures LexLe(a, b) <==> DigitsValue(a) <= DigitsValue(b)
    decreases |a|
  {
    if a != [] {
      if a[0] < b[0] {
        FirstDigitDecides(a, b);
      } else if b[0] < a[0] {
        FirstDigitDecides(b, a);
      } else {
        DigitsValueFront(a);
        DigitsValueFront(b);
        TextOrderIsNumericOrder(a[1..], b[1..]);
      }
    }
  }
}
