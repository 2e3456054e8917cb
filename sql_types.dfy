/** How Postgres stores text into the `numeric(p, 2)` money and quantity columns. */
module SqlTypes {
  import opened Wrappers
  import opened Text
  import opened Numbers

  /** A `numeric(p, 2)` value: NaN, or a whole number of hundredths. */
  datatype Numeric = NaN | Hundredths(hundredths: int)

  /** Text stored into `numeric(precision, 2)`: "NaN" in any case, or a decimal literal
      rounded to two places (halves away from zero) that fits in `precision` digits;
      `None` is the error Postgres raises. */
  function NumericInput(s: string, precision: nat): (r: Option<Numeric>)
    ensures r.Some? && r.value.Hundredths? ==>
      -(Pow10(precision) as int) < r.value.hundredths < Pow10(precision)
  {
    if Lower(s) == "nan" then Some(NaN)
    else match ParseNumber(s)
      case None => None
      case Some(v) =>
        var c := SignedCents(v);
        if -(Pow10(precision) as int) < c < Pow10(precision) then Some(Hundredths(c)) else None
  }

  /** A value already in hundredths is left as it is by rounding. */
  lemma RoundingKeepsHundredths(c: int)
    ensures SignedCents(c as real / 100.0) == c
  {
    var m := if c < 0 then -c else c;
    assert (m as real / 100.0 * 100.0 + 0.5).Floor == m;
  }

  /** Storing the `toFixed(2)` text of a number keeps exactly its rounded value; the text
      of NaN stores NaN. */
  lemma StoredFixedText(x: Option<real>, precision: nat)
    requires x.Some? ==> -(Pow10(precision) as int) < SignedCents(x.value) < Pow10(precision)
    ensures NumericInput(ToFixed2(x), precision) ==
      match x case None => Some(NaN) case Some(v) => Some(Hundredths(SignedCents(v)))
  {
    match x
    case None =>
      assert Lower("NaN") == "nan";
    case Some(v) =>
      StoredFixedNumber(v, precision);
  }

  lemma StoredFixedNumber(v: real, precision: nat)
    requires -(Pow10(precision) as int) < SignedCents(v) < Pow10(precision)
    ensures NumericInput(ToFixed2(Some(v)), precision) == Some(Hundredths(SignedCents(v)))
  {
    var t := ToFixed2(Some(v));
    FixedTextIsNotNaN(v);
    ToFixed2NumberRoundTrip(v);
    assert ParseNumber(t) == Some(Round2(v));
    RoundingKeepsHundredths(SignedCents(v));
    assert SignedCents(Round2(v)) == SignedCents(v);
  }

  /** The `toFixed(2)` text of a number ends in a digit, so it never reads as "NaN". */
  lemma FixedTextIsNotNaN(v: real)
    ensures Lower(ToFixed2(Some(v))) != "nan"
  {
    var c := CentsOf(v);
    var t := ToFixed2(Some(v));
    var tail := TwoDigits(c % 100);
    assert t == (if v < 0.0 then "-" else "") + NatToString(c / 100) + "." + tail;
    assert t[|t| - 1] == tail[1];
    assert Lower(t)[|t| - 1] == LowerChar(tail[1]);
  }
}
