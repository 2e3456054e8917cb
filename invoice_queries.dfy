/** The invoice store operations: next-number suggestion, the number-exists check, the
    monthly count, create, update, status change, delete and the paginated listing. */
module InvoiceQueries {
  import opened Wrappers
  import opened Text
  import opened Numbers
  import opened Seqs
  import opened InvoicesSchema

  // ---------------------------------------------------------------------------------
  // Next invoice number

  /** "INV-<year>-", the prefix of the year's numbers. */
  function InvoicePrefix(year: nat): (p: string)
    ensures |p| >= 6
  {
    "INV-" + NatToString(year) + "-"
  }

  /** Every invoice number of the user. */
  function NumbersOf(t: seq<InvoiceRow>, userId: nat): set<string> {
    set v | v in t && v.userId == userId :: v.invoiceNumber
  }

  /** The user's invoice numbers that start with `prefix`, in table order. */
  function NumbersUnder(t: seq<InvoiceRow>, userId: nat, prefix: string): (r: seq<string>)
    ensures forall i :: 0 <= i < |r| ==> StartsWith(r[i], prefix) && r[i] in NumbersOf(t, userId)
    ensures forall j :: 0 <= j < |t| ==>
      (t[j].userId == userId && StartsWith(t[j].invoiceNumber, prefix) ==> t[j].invoiceNumber in r)
  {
    if t == [] then []
    else
      var rest := NumbersUnder(t[1..], userId, prefix);
      NumbersOfTail(t, userId);
      assert forall j :: 1 <= j < |t| ==> t[j] == t[1..][j - 1];
      (if t[0].userId == userId && StartsWith(t[0].invoiceNumber, prefix) then [t[0].invoiceNumber] else [])
      + rest
  }

  lemma NumbersOfTail(t: seq<InvoiceRow>, userId: nat)
    requires t != []
    ensures NumbersOf(t[1..], userId) <= NumbersOf(t, userId)
    ensures t[0].userId == userId ==> t[0].invoiceNumber in NumbersOf(t, userId)
  {
    forall x | x in NumbersOf(t[1..], userId) ensures x in NumbersOf(t, userId) {
      var v :| v in t[1..] && v.userId == userId && v.invoiceNumber == x;
      assert v in t;
    }
    if t[0].userId == userId {
      assert t[0] in t;
    }
  }

  /** The greatest text of a non-empty list in the column's order, what
      `ORDER BY invoice_number DESC LIMIT 1` returns. */
  function GreatestText(s: seq<string>): (m: string)
    requires |s| > 0
    ensures m in s
    ensures forall i :: 0 <= i < |s| ==> LexLe(s[i], m)
  {
    if |s| == 1 then
      LexLeReflexive(s[0]);
      s[0]
    else
      var m := GreatestText(s[1..]);
      LexLeTotal(s[0], m);
      LexLeReflexive(s[0]);
      assert forall i :: 1 <= i < |s| ==> s[i] == s[1..][i - 1];
      if LexLe(s[0], m) then m
      else
        assert forall i :: 1 <= i < |s| ==> LexLe(s[i], s[0]) by {
          forall i | 1 <= i < |s| ensures LexLe(s[i], s[0]) {
            LexLeTransitive(s[i], m, s[0]);
          }
        }
        s[0]
  }

  /** The sequence part that follows `lastSequence`: its successor, zero-padded to four
      characters; a suffix `parseInt` reads as NaN gives "0NaN", and a negative successor
      keeps its sign behind the zeros. */
  function NextSequence(lastSequence: Option<int>): string {
    match lastSequence
    case None => PadStart("NaN", 4, '0')
    case Some(n) => PadStart(IntToString(n + 1), 4, '0')
  }

  /** `parseInt` skips white space and reads a sign, so a suffix " 7" is followed by
      "0008" and a suffix "-5" by "00-4", while "x7" gives "0NaN". */
  lemma SpacedAndSignedSequences()
    ensures NextSequence(ParseInt(" 7")) == "0008"
    ensures NextSequence(ParseInt("-5")) == "00-4"
    ensures NextSequence(ParseInt("x7")) == "0NaN"
  {
    SpacedSequence();
    SignedSequence();
    UnreadableSequence();
  }

  lemma SpacedSequence()
    ensures ParseInt(" 7") == Some(7)
    ensures NextSequence(ParseInt(" 7")) == "0008"
  {
    ParseIntSkipsWhitespace(" ", "7");
    assert " " + "7" == " 7";
    ParseIntOfDigits("7");
    assert DigitsValue("7") == 7 by { assert "7"[..0] == ""; }
    assert IntToString(8) == "8";
  }

  lemma SignedSequence()
    ensures ParseInt("-5") == Some(-5)
    ensures NextSequence(ParseInt("-5")) == "00-4"
  {
    assert "-" + "5" == "-5";
    ParseIntOfDigits("5");
    assert DigitsValue("5") == 5 by { assert "5"[..0] == ""; }
    assert IntToString(-4) == "-4" by { assert NatToString(4) == "4"; }
  }

  lemma UnreadableSequence()
    ensures ParseInt("x7") == None
    ensures NextSequence(ParseInt("x7")) == "0NaN"
  {
    assert !IsWhitespace('x') && !IsDigit('x');
    assert TrimStart("x7") == "x7";
    assert LeadingDigits("x7") == [];
  }

  /** The suggested number for a user's next invoice in `year`: "INV-<year>-0001" when the
      user has no number under the year's prefix; otherwise the successor of the
      sequence that follows the prefix in the greatest such number, in text order. */
  function NextInvoiceNumber(t: seq<InvoiceRow>, userId: nat, year: nat): (n: string)
    ensures StartsWith(n, InvoicePrefix(year))
  {
    var prefix := InvoicePrefix(year);
    var numbers := NumbersUnder(t, userId, prefix);
    if numbers == [] then prefix + "0001"
    else
      var last := GreatestText(numbers);
      assert (prefix + NextSequence(ParseInt(last[|prefix|..])))[..|prefix|] == prefix;
      prefix + NextSequence(ParseInt(last[|prefix|..]))
  }

  /** A user with no number under the year's prefix is offered sequence 0001. */
  lemma FirstNumberOfYear(t: seq<InvoiceRow>, userId: nat, year: nat)
    requires forall j :: 0 <= j < |t| && t[j].userId == userId ==>
      !StartsWith(t[j].invoiceNumber, InvoicePrefix(year))
    ensures NextInvoiceNumber(t, userId, year) == InvoicePrefix(year) + "0001"
  {
    NoNumbersUnder(t, userId, InvoicePrefix(year));
  }

  lemma {:induction false} NoNumbersUnder(t: seq<InvoiceRow>, userId: nat, prefix: string)
    requires forall j :: 0 <= j < |t| && t[j].userId == userId ==> !StartsWith(t[j].invoiceNumber, prefix)
    ensures NumbersUnder(t, userId, prefix) == []
  {
    if t != [] {
      assert forall j :: 1 <= j < |t| ==> t[1..][j - 1] == t[j];
      NoNumbersUnder(t[1..], userId, prefix);
    }
  }

  /** Every number under the prefix carries a four-digit sequence. */
  predicate FourDigitSequences(t: seq<InvoiceRow>, userId: nat, prefix: string) {
    forall j :: 0 <= j < |t| && t[j].userId == userId && StartsWith(t[j].invoiceNumber, prefix) ==>
      |t[j].invoiceNumber| == |prefix| + 4 && AllDigits(t[j].invoiceNumber[|prefix|..])
  }

  /** While every sequence under the year's prefix has four digits, the suggestion is
      none of the user's existing numbers: it follows the greatest sequence. */
  lemma NextNumberIsFresh(t: seq<InvoiceRow>, userId: nat, year: nat)
    requires FourDigitSequences(t, userId, InvoicePrefix(year))
    ensures forall j :: 0 <= j < |t| && t[j].userId == userId ==>
      t[j].invoiceNumber != NextInvoiceNumber(t, userId, year)
  {
    forall j | 0 <= j < |t| && t[j].userId == userId
      ensures t[j].invoiceNumber != NextInvoiceNumber(t, userId, year)
    {
      if StartsWith(t[j].invoiceNumber, InvoicePrefix(year)) {
        NextNumberDiffers(t, userId, year, j);
      }
    }
  }

  lemma NextNumberDiffers(t: seq<InvoiceRow>, userId: nat, year: nat, j: nat)
    requires FourDigitSequences(t, userId, InvoicePrefix(year))
    requires j < |t| && t[j].userId == userId && StartsWith(t[j].invoiceNumber, InvoicePrefix(year))
    ensures t[j].invoiceNumber != NextInvoiceNumber(t, userId, year)
  {
    var prefix := InvoicePrefix(year);
    var numbers := NumbersUnder(t, userId, prefix);
    NumberBelowGreatest(t, userId, year, j);
    LastNumberFacts(t, userId, prefix);
    NotSuccessorOfGreatest(t[j].invoiceNumber, GreatestText(numbers), prefix);
    NextInvoiceNumberFollowsLast(t, userId, year);
  }

  /** Each of the user's numbers under the prefix is at most the greatest. */
  lemma NumberBelowGreatest(t: seq<InvoiceRow>, userId: nat, year: nat, j: nat)
    requires j < |t| && t[j].userId == userId && StartsWith(t[j].invoiceNumber, InvoicePrefix(year))
    ensures NumbersUnder(t, userId, InvoicePrefix(year)) != []
    ensures LexLe(t[j].invoiceNumber, GreatestText(NumbersUnder(t, userId, InvoicePrefix(year))))
  {
    var numbers := NumbersUnder(t, userId, InvoicePrefix(year));
    assert t[j].invoiceNumber in numbers;
  }

  /** A number with a four-digit sequence at or below `last` is not the one that follows
      `last`. */
  lemma NotSuccessorOfGreatest(x: string, last: string, prefix: string)
    requires StartsWith(x, prefix) && StartsWith(last, prefix)
    requires |x| == |prefix| + 4 && |last| == |prefix| + 4
    requires AllDigits(x[|prefix|..]) && AllDigits(last[|prefix|..])
    requires LexLe(x, last)
    ensures x != prefix + NextSequence(ParseInt(last[|prefix|..]))
  {
    var sm := last[|prefix|..];
    var sx := x[|prefix|..];
    SplitAtPrefix(x, prefix);
    SplitAtPrefix(last, prefix);
    LexLeCommonPrefix(prefix, sx, sm);
    assert LexLe(sx, sm);
    var next := NextOfDigits(sm);
    PaddedSuccessorIsAbove(sm, sx);
    PrefixedDiffer(prefix, sx, next);
  }

  /** The successor of a sequence written in digits. */
  lemma NextOfDigits(sm: string) returns (next: string)
    requires 0 < |sm| && AllDigits(sm)
    ensures next == PadStart(NatToString(DigitsValue(sm) + 1), 4, '0')
    ensures NextSequence(ParseInt(sm)) == next
  {
    ParseIntOfDigits(sm);
    next := PadStart(NatToString(DigitsValue(sm) + 1), 4, '0');
  }

  lemma PrefixedDiffer(prefix: string, a: string, b: string)
    requires a != b
    ensures prefix + a != prefix + b
  {
    assert (prefix + a)[|prefix|..] == a && (prefix + b)[|prefix|..] == b;
  }

  lemma SplitAtPrefix(s: string, prefix: string)
    requires StartsWith(s, prefix)
    ensures s == prefix + s[|prefix|..]
  {
  }

  /** With some number under the prefix, the suggestion is the prefix and the successor
      of the greatest one's sequence. */
  lemma NextInvoiceNumberFollowsLast(t: seq<InvoiceRow>, userId: nat, year: nat)
    requires NumbersUnder(t, userId, InvoicePrefix(year)) != []
    ensures NextInvoiceNumber(t, userId, year) == InvoicePrefix(year) + NextSequence(ParseInt(
      GreatestText(NumbersUnder(t, userId, InvoicePrefix(year)))[|InvoicePrefix(year)|..]))
  {
  }

  /** The greatest number under the prefix has a four-digit sequence too. */
  lemma LastNumberFacts(t: seq<InvoiceRow>, userId: nat, prefix: string)
    requires FourDigitSequences(t, userId, prefix)
    requires NumbersUnder(t, userId, prefix) != []
    ensures var last := GreatestText(NumbersUnder(t, userId, prefix));
      StartsWith(last, prefix) && |last| == |prefix| + 4 && AllDigits(last[|prefix|..])
  {
    var numbers := NumbersUnder(t, userId, prefix);
    var last := GreatestText(numbers);
    var k :| 0 <= k < |numbers| && numbers[k] == last;
    var v :| v in t && v.userId == userId && v.invoiceNumber == last;
    var j :| 0 <= j < |t| && t[j] == v;
  }

  /** A four-digit sequence at or below `last` is not the padded successor of `last`. */
  lemma PaddedSuccessorIsAbove(last: string, s: string)
    requires |last| == 4 && AllDigits(last) && |s| == 4 && AllDigits(s) && LexLe(s, last)
    ensures ParseInt(PadStart(NatToString(DigitsValue(last) + 1), 4, '0')) == Some(DigitsValue(last) + 1)
    ensures DigitsValue(s) < DigitsValue(last) + 1
    ensures s != PadStart(NatToString(DigitsValue(last) + 1), 4, '0')
  {
    PaddedNumberParses(DigitsValue(last) + 1, 4);
    TextOrderIsNumericOrder(s, last);
    ParseIntOfDigits(s);
  }

  /** While every sequence under the year's prefix has four digits, the suggestion's
      sequence is greater than the sequence of every number the user has under the
      prefix: the sequences strictly increase. */
  lemma NextNumberExceedsAll(t: seq<InvoiceRow>, userId: nat, year: nat)
    requires FourDigitSequences(t, userId, InvoicePrefix(year))
    ensures SequenceOf(NextInvoiceNumber(t, userId, year), InvoicePrefix(year)).Some?
    ensures forall j ::
      (0 <= j < |t| && t[j].userId == userId && StartsWith(t[j].invoiceNumber, InvoicePrefix(year))) ==>
      SequenceOf(t[j].invoiceNumber, InvoicePrefix(year)).Some?
      && SequenceOf(t[j].invoiceNumber, InvoicePrefix(year)).value
         < SequenceOf(NextInvoiceNumber(t, userId, year), InvoicePrefix(year)).value
  {
    var prefix := InvoicePrefix(year);
    var n := NextInvoiceNumber(t, userId, year);
    var numbers := NumbersUnder(t, userId, prefix);
    if numbers == [] {
      assert n == prefix + "0001";
      SequenceAfterPrefix(prefix, "0001");
      PaddedNumberParses(1, 4);
      assert NatToString(1) == "1";
      assert PadStart("1", 4, '0') == "0001";
    } else {
      var last := GreatestText(numbers);
      LastNumberFacts(t, userId, prefix);
      var sm := last[|prefix|..];
      var next := NextOfDigits(sm);
      NextInvoiceNumberFollowsLast(t, userId, year);
      assert n == prefix + next;
      PaddedNumberParses(DigitsValue(sm) + 1, 4);
      SequenceAfterPrefix(prefix, next);
      forall j | 0 <= j < |t| && t[j].userId == userId && StartsWith(t[j].invoiceNumber, prefix)
        ensures SequenceOf(t[j].invoiceNumber, prefix) == Some(DigitsValue(t[j].invoiceNumber[|prefix|..]))
        ensures DigitsValue(t[j].invoiceNumber[|prefix|..]) < DigitsValue(sm) + 1
      {
        var x := t[j].invoiceNumber;
        var sx := x[|prefix|..];
        NumberBelowGreatest(t, userId, year, j);
        SplitAtPrefix(x, prefix);
        SplitAtPrefix(last, prefix);
        LexLeCommonPrefix(prefix, sx, sm);
        PaddedSuccessorIsAbove(sm, sx);
        ParseIntOfDigits(sx);
      }
    }
  }

  // ---------------------------------------------------------------------------------
  // A number past 9999

  /** The sequence that follows `prefix` in a number, as `parseInt` reads it. */
  function SequenceOf(number: string, prefix: string): Option<int> {
    if |prefix| <= |number| then ParseInt(number[|prefix|..]) else None
  }

  lemma SequenceAfterPrefix(prefix: string, rest: string)
    ensures SequenceOf(prefix + rest, prefix) == ParseInt(rest)
  {
    assert (prefix + rest)[|prefix|..] == rest;
  }

  /** Once a user's year reaches sequence 10000, text order puts "…-9999" above
      "…-10000", so the suggestion repeats a number the user already has. */
  lemma NextNumberRepeatsAfter9999(row: InvoiceRow, year: nat)
    ensures var t := [row.(invoiceNumber := InvoicePrefix(year) + "9999"),
                      row.(invoiceNumber := InvoicePrefix(year) + "10000")];
      NextInvoiceNumber(t, row.userId, year) == t[1].invoiceNumber
  {
    var prefix := InvoicePrefix(year);
    var a, b := prefix + "9999", prefix + "10000";
    var t := [row.(invoiceNumber := a), row.(invoiceNumber := b)];
    TwoNumbersUnder(t, row.userId, prefix);
    NineAboveTenThousand(prefix);
    assert a[|prefix|..] == "9999";
    SuccessorOf9999();
    NextInvoiceNumberFollowsLast(t, row.userId, year);
  }

  lemma TwoNumbersUnder(t: seq<InvoiceRow>, userId: nat, prefix: string)
    requires |t| == 2 && t[0].userId == userId && t[1].userId == userId
    requires StartsWith(t[0].invoiceNumber, prefix) && StartsWith(t[1].invoiceNumber, prefix)
    ensures NumbersUnder(t, userId, prefix) == [t[0].invoiceNumber, t[1].invoiceNumber]
  {
    assert t[1..][1..] == [];
    assert NumbersUnder(t[1..][1..], userId, prefix) == [];
  }

  /** In text order "9999" comes after "10000". */
  lemma NineAboveTenThousand(prefix: string)
    ensures GreatestText([prefix + "9999", prefix + "10000"]) == prefix + "9999"
  {
    LexLeCommonPrefix(prefix, "10000", "9999");
    LexLeCommonPrefix(prefix, "9999", "10000");
    assert !LexLe("9999", "10000");
  }

  lemma ParseIntOf9999()
    ensures ParseInt("9999") == Some(9999)
  {
    ParseIntOfDigits("9999");
    assert "9999"[..3] == "999" && "999"[..2] == "99" && "99"[..1] == "9" && "9"[..0] == "";
  }

  lemma NatToStringOf10000()
    ensures NatToString(10000) == "10000"
  {
    assert NatToString(1) == "1";
    assert NatToString(10) == "10";
    assert NatToString(100) == "100";
    assert NatToString(1000) == "1000";
  }

  lemma SuccessorOf9999()
    ensures NextSequence(ParseInt("9999")) == "10000"
  {
    ParseIntOf9999();
    NatToStringOf10000();
    assert PadStart("10000", 4, '0') == "10000";
  }

  /** The greatest sequence, by value, among the numbers under the prefix; 0 when none
      has one. */
  function GreatestSequence(numbers: seq<string>, prefix: string): (m: nat)
    ensures forall i :: 0 <= i < |numbers| && SequenceOf(numbers[i], prefix).Some? ==>
      SequenceOf(numbers[i], prefix).value <= m
  {
    if numbers == [] then 0
    else
      var rest := GreatestSequence(numbers[1..], prefix);
      assert forall i :: 1 <= i < |numbers| ==> numbers[i] == numbers[1..][i - 1];
      match SequenceOf(numbers[0], prefix)
      case Some(v) => if v > rest then v else rest
      case None => rest
  }

  /** The suggestion with sequences compared as numbers: one past the greatest. */
  function NextInvoiceNumberByValue(t: seq<InvoiceRow>, userId: nat, year: nat): (n: string)
    ensures StartsWith(n, InvoicePrefix(year))
  {
    var prefix := InvoicePrefix(year);
    var next := PadStart(NatToString(GreatestSequence(NumbersUnder(t, userId, prefix), prefix) + 1), 4, '0');
    assert (prefix + next)[..|prefix|] == prefix;
    prefix + next
  }

  /** Compared by value, the suggestion is never one of the user's numbers, whatever the
      width of their sequences. */
  lemma NextNumberByValueIsFresh(t: seq<InvoiceRow>, userId: nat, year: nat)
    ensures forall j :: 0 <= j < |t| && t[j].userId == userId ==>
      t[j].invoiceNumber != NextInvoiceNumberByValue(t, userId, year)
  {
    var prefix := InvoicePrefix(year);
    var numbers := NumbersUnder(t, userId, prefix);
    var m := GreatestSequence(numbers, prefix);
    assert NextInvoiceNumberByValue(t, userId, year) == prefix + PadStart(NatToString(m + 1), 4, '0');
    NoneIsSuggestion(t, userId, prefix, m);
  }

  lemma NoneIsSuggestion(t: seq<InvoiceRow>, userId: nat, prefix: string, m: nat)
    requires m == GreatestSequence(NumbersUnder(t, userId, prefix), prefix)
    ensures forall j :: 0 <= j < |t| && t[j].userId == userId ==>
      t[j].invoiceNumber != prefix + PadStart(NatToString(m + 1), 4, '0')
  {
    var numbers := NumbersUnder(t, userId, prefix);
    forall j | 0 <= j < |t| && t[j].userId == userId
      ensures t[j].invoiceNumber != prefix + PadStart(NatToString(m + 1), 4, '0')
    {
      NotAboveGreatest(t[j].invoiceNumber, prefix, numbers, m);
    }
  }

  /** The suggestion's sequence is one past the greatest. */
  lemma SuggestionSequence(prefix: string, m: nat)
    ensures SequenceOf(prefix + PadStart(NatToString(m + 1), 4, '0'), prefix) == Some(m + 1)
  {
    var next := PadStart(NatToString(m + 1), 4, '0');
    PaddedNumberParses(m + 1, 4);
    assert (prefix + next)[|prefix|..] == next;
  }

  /** A number that is listed whenever it starts with the prefix, in a list whose
      sequences are all at most m, is not the prefix followed by m + 1. */
  lemma NotAboveGreatest(x: string, prefix: string, numbers: seq<string>, m: nat)
    requires StartsWith(x, prefix) ==> x in numbers
    requires forall i :: 0 <= i < |numbers| && SequenceOf(numbers[i], prefix).Some? ==>
      SequenceOf(numbers[i], prefix).value <= m
    ensures x != prefix + PadStart(NatToString(m + 1), 4, '0')
  {
    var n := prefix + PadStart(NatToString(m + 1), 4, '0');
    if StartsWith(x, prefix) {
      SuggestionSequence(prefix, m);
      var k :| 0 <= k < |numbers| && numbers[k] == x;
      assert SequenceOf(x, prefix) != Some(m + 1);
    } else {
      assert n[..|prefix|] == prefix;
    }
  }

  // ---------------------------------------------------------------------------------
  // Number-exists check and monthly count

  /** `checkInvoiceNumberExists`: whether one of the user's invoices, other than the
      excluded one, already carries the number. */
  function CheckInvoiceNumberExists(t: seq<InvoiceRow>, userId: nat, number: string,
                                    excludeId: Option<nat>): (b: bool)
    ensures b <==> exists j :: 0 <= j < |t| && t[j].userId == userId && t[j].invoiceNumber == number
                              && (excludeId.None? || t[j].id != excludeId.value)
  {
    if t == [] then false
    else
      var rest := CheckInvoiceNumberExists(t[1..], userId, number, excludeId);
      assert forall j :: 1 <= j < |t| ==> t[j] == t[1..][j - 1];
      (t[0].userId == userId && t[0].invoiceNumber == number
       && (excludeId.None? || t[0].id != excludeId.value))
      || rest
  }

  /** An excluded id only hides that one invoice: without exclusion the check finds at
      least as much. */
  lemma ExclusionOnlyNarrows(t: seq<InvoiceRow>, userId: nat, number: string, excludeId: nat)
    ensures CheckInvoiceNumberExists(t, userId, number, Some(excludeId))
      ==> CheckInvoiceNumberExists(t, userId, number, None)
    ensures CheckInvoiceNumberExists(t, userId, number, None)
      && !CheckInvoiceNumberExists(t, userId, number, Some(excludeId))
      ==> exists j :: 0 <= j < |t| && t[j].id == excludeId && t[j].userId == userId
                       && t[j].invoiceNumber == number
  {
  }

  /** `getMonthlyInvoiceCount`: how many of the user's invoices were created at or after
      `monthStart`, the first instant of the current month. */
  function MonthlyInvoiceCount(t: seq<InvoiceRow>, userId: nat, monthStart: int): (c: nat)
    ensures c <= |t|
  {
    if t == [] then 0
    else (if t[0].userId == userId && t[0].createdAt >= monthStart then 1 else 0)
         + MonthlyInvoiceCount(t[1..], userId, monthStart)
  }

  /** A new row adds one to its owner's count when created this month, and nothing to
      anyone else's. */
  lemma {:induction false} MonthlyCountAppend(t: seq<InvoiceRow>, row: InvoiceRow, userId: nat, monthStart: int)
    ensures MonthlyInvoiceCount(t + [row], userId, monthStart)
      == MonthlyInvoiceCount(t, userId, monthStart)
         + (if row.userId == userId && row.createdAt >= monthStart then 1 else 0)
  {
    if t == [] {
      assert [row][1..] == [];
    } else {
      assert (t + [row])[1..] == t[1..] + [row];
      MonthlyCountAppend(t[1..], row, userId, monthStart);
    }
  }

  /** The count is zero exactly when no invoice of the user was created this month. */
  lemma {:induction false} MonthlyCountZero(t: seq<InvoiceRow>, userId: nat, monthStart: int)
    ensures MonthlyInvoiceCount(t, userId, monthStart) == 0
      <==> forall j :: 0 <= j < |t| && t[j].userId == userId ==> t[j].createdAt < monthStart
  {
    if t != [] {
      MonthlyCountZero(t[1..], userId, monthStart);
      assert forall j :: 1 <= j < |t| ==> t[j] == t[1..][j - 1];
    }
  }

  /** An earlier month start counts at least as many invoices. */
  lemma {:induction false} MonthlyCountAntitone(t: seq<InvoiceRow>, userId: nat, early: int, late: int)
    requires early <= late
    ensures MonthlyInvoiceCount(t, userId, late) <= MonthlyInvoiceCount(t, userId, early)
  {
    if t != [] { MonthlyCountAntitone(t[1..], userId, early, late); }
  }
}
