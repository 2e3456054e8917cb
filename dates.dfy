/** Calendar dates as the two sides of the application read them: `new Date(s)` in
    JavaScript and the `date` column type in Postgres, both for ISO "YYYY-MM-DD" text.
    A date is a day count, so comparing two dates compares two integers. */
module Dates {
  import opened Wrappers
  import opened Numbers

  predicate IsLeapYear(y: nat) {
    y % 4 == 0 && (y % 100 != 0 || y % 400 == 0)
  }

  function DaysInMonth(y: nat, m: nat): (n: nat)
    requires 1 <= m <= 12
    ensures 28 <= n <= 31
  {
    if m == 2 then (if IsLeapYear(y) then 29 else 28)
    else if m == 4 || m == 6 || m == 9 || m == 11 then 30
    else 31
  }

  /** Days in the months of year y that come before month m. */
  function DaysBeforeMonth(y: nat, m: nat): nat
    requires 1 <= m <= 13
  {
    if m == 1 then 0 else DaysBeforeMonth(y, m - 1) + DaysInMonth(y, m - 1)
  }

  /** Days in the years before year y of the proleptic Gregorian calendar. */
  function DaysBeforeYear(y: nat): int {
    365 * y + (y + 3) / 4 - (y + 99) / 100 + (y + 399) / 400
  }

  /** The year, month and day fields of a date. */
  datatype Ymd = Ymd(year: nat, month: nat, day: nat)

  /** The fields written in an ISO "YYYY-MM-DD" string, when it has that shape. */
  function IsoFields(s: string): Option<Ymd> {
    if |s| == 10 && s[4] == '-' && s[7] == '-'
       && AllDigits(s[..4]) && AllDigits(s[5..7]) && AllDigits(s[8..])
    then Some(Ymd(DigitsValue(s[..4]), DigitsValue(s[5..7]), DigitsValue(s[8..])))
    else None
  }

  /** The day count of a date; a day past the end of its month runs on into the next. */
  function DayNumber(d: Ymd): int
    requires 1 <= d.month <= 12
  {
    DaysBeforeYear(d.year) + DaysBeforeMonth(d.year, d.month) + d.day - 1
  }

  /** `new Date(s)`; `None` is an Invalid Date, whose comparisons are all false. */
  function JsDate(s: string): Option<int> {
    match IsoFields(s)
    case Some(d) =>
      if 1 <= d.month <= 12 && 1 <= d.day <= 31 then Some(DayNumber(d)) else None
    case None => None
  }

  /** Postgres `date` input: the same text, with the day inside its month. */
  function SqlDate(s: string): Option<int> {
    match IsoFields(s)
    case Some(d) =>
      if 1 <= d.month <= 12 && 1 <= d.day <= DaysInMonth(d.year, d.month)
      then Some(DayNumber(d)) else None
    case None => None
  }

  /** `new Date(a) >= new Date(b)`. */
  predicate JsDateGe(a: string, b: string) {
    JsDate(a).Some? && JsDate(b).Some? && JsDate(a).value >= JsDate(b).value
  }

  /** `new Date(a) < new Date(b)`. */
  predicate JsDateLt(a: string, b: string) {
    JsDate(a).Some? && JsDate(b).Some? && JsDate(a).value < JsDate(b).value
  }

  /** Every date Postgres stores reads the same in JavaScript. */
  lemma SqlDateIsJsDate(s: string)
    requires SqlDate(s).Some?
    ensures JsDate(s) == SqlDate(s)
  {
  }

  /** Two invalid or one invalid date make both comparisons false: `>=` is not the
      negation of `<` in JavaScript. */
  lemma InvalidDatesCompareFalse(a: string, b: string)
    requires JsDate(a).None? || JsDate(b).None?
    ensures !JsDateGe(a, b) && !JsDateLt(b, a) && !JsDateLt(a, b)
  {
  }
}
