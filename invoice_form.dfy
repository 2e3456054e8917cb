/** The invoice form in the browser: the running totals it shows, the check it makes
    before the preview (`validateForm`, which fills an error dictionary keyed by field,
    with keys `items.<row>.<field>` for the rows), and the rows the preview keeps. */
module InvoiceForm {
  import opened Wrappers
  import opened Text
  import opened Numbers
  import opened Dates
  import opened Seqs
  import opened LineItems

  /** The form fields `validateForm` and the totals read. */
  datatype FormState = FormState(
    invoiceNumber: string,
    issueDate: string,
    dueDate: string,
    taxRate: string,
    items: seq<LineItem>)

  /** The three figures the form shows, as `toFixed(2)` prints them. */
  datatype Totals = Totals(subtotal: string, taxAmount: string, total: string)

  // ---------------------------------------------------------------------------------
  // calculations

  /** `parseFloat(item.amount || "0")`: an empty amount counts as zero, an unreadable
      one is NaN. */
  function AmountValue(it: LineItem): Option<real> {
    ParseNumber(if it.amount == "" then "0" else it.amount)
  }

  function AmountValues(items: seq<LineItem>): (r: seq<Option<real>>)
    ensures |r| == |items| && forall i :: 0 <= i < |items| ==> r[i] == AmountValue(items[i])
  {
    seq(|items|, i requires 0 <= i < |items| => AmountValue(items[i]))
  }

  /** `items.reduce((sum, item) => sum + parseFloat(item.amount || "0"), 0)`; one NaN
      amount makes the whole sum NaN. */
  function AmountSum(items: seq<LineItem>): (r: Option<real>)
    ensures r.None? <==> exists i :: 0 <= i < |items| && AmountValue(items[i]).None?
  {
    var r := SumOf(AmountValues(items));
    assert r.None? ==> exists i :: 0 <= i < |items| && AmountValue(items[i]).None? by {
      if r.None? {
        var i :| 0 <= i < |items| && AmountValues(items)[i].None?;
      }
    }
    r
  }

  /** `parseFloat(taxRate) || 0`. */
  function TaxRateValue(taxRate: string): real {
    OrZero(ParseNumber(taxRate))
  }

  /** The three figures for a subtotal that is a number and a tax percentage: they read
      back as the subtotal, the tax on it and their sum, each rounded to two decimals. */
  function TotalsOf(s: real, rate: real): (t: Totals)
    ensures ParseNumber(t.subtotal) == Some(Round2(s))
    ensures ParseNumber(t.taxAmount) == Some(Round2(TaxOn(s, rate)))
    ensures ParseNumber(t.total) == Some(Round2(s + TaxOn(s, rate)))
  {
    var tax := TaxOn(s, rate);
    Totals(FixedNumber(s), FixedNumber(tax), FixedNumber(s + tax))
  }

  /** `subtotal * (taxRate / 100)`. */
  function TaxOn(subtotal: real, rate: real): real {
    subtotal * (rate / 100.0)
  }

  /** The `calculations` memo; a NaN subtotal makes all three figures NaN. */
  function Calculations(items: seq<LineItem>, taxRate: string): (t: Totals)
    ensures AmountSum(items).None? ==> t == Totals("NaN", "NaN", "NaN")
    ensures AmountSum(items).Some? ==> t == TotalsOf(AmountSum(items).value, TaxRateValue(taxRate))
  {
    match AmountSum(items)
    case None => Totals(ToFixed2(None), ToFixed2(None), ToFixed2(None))
    case Some(s) => TotalsOf(s, TaxRateValue(taxRate))
  }

  /** A row whose amount is empty adds nothing to the subtotal. */
  lemma BlankAmountCountsZero(items: seq<LineItem>, it: LineItem)
    requires it.amount == ""
    ensures AmountSum(items + [it]) == AmountSum(items)
  {
    assert AmountValue(it) == Some(0.0) by {
      assert DotIndex("0") == 1;
      assert DigitsValue("0") == 0;
    }
    var xs := AmountValues(items + [it]);
    assert xs[..|items|] == AmountValues(items);
  }

  /** An unreadable tax rate is the same as no tax. */
  lemma UnreadableTaxRateCountsZero(items: seq<LineItem>, taxRate: string)
    requires ParseNumber(taxRate).None?
    ensures Calculations(items, taxRate) == Calculations(items, "")
  {
    assert TaxRateValue(taxRate) == 0.0;
    assert TaxRateValue("") == 0.0 by {
      assert ParseNumber("") == None;
    }
  }

  /** What the editor computes for each row: quantity times unit price, rounded to two
      decimals, an unreadable number counting as zero. */
  function RowProducts(items: seq<LineItem>): (r: seq<real>)
    ensures |r| == |items|
    ensures forall i :: 0 <= i < |items| ==> r[i] == Round2(Product(items[i].quantity, items[i].unitPrice))
  {
    seq(|items|, i requires 0 <= i < |items| => Round2(Product(items[i].quantity, items[i].unitPrice)))
  }

  /** The subtotal of rows whose amounts are in step with their numbers is the sum of
      the rounded products of quantity and unit price. */
  lemma SubtotalOfEditedRows(items: seq<LineItem>)
    requires AllAmountsShown(items)
    ensures AmountSum(items) == Some(Sum(RowProducts(items)))
  {
    AmountValuesAreProducts(items);
    SumOfNumbers(AmountValues(items), RowProducts(items));
  }

  lemma AmountValuesAreProducts(items: seq<LineItem>)
    requires AllAmountsShown(items)
    ensures forall i :: 0 <= i < |items| ==> AmountValues(items)[i] == Some(RowProducts(items)[i])
  {
    forall i | 0 <= i < |items|
      ensures AmountValues(items)[i] == Some(RowProducts(items)[i])
    {
      RowAmountValue(items[i]);
    }
  }

  lemma RowAmountValue(it: LineItem)
    requires AmountShown(it)
    ensures AmountValue(it) == Some(Round2(Product(it.quantity, it.unitPrice)))
  {
    LineAmountIsNotEmpty(it.quantity, it.unitPrice);
    LineAmountReadsBack(it.quantity, it.unitPrice);
  }

  // ---------------------------------------------------------------------------------
  // validateForm

  const InvoiceNumberRequired: string := "Invoice number is required"
  const IssueDateRequired: string := "Issue date is required"
  const DueDateBeforeIssue: string := "Due date must be on or after issue date"
  const ValidItemRequired: string := "At least one valid line item is required"
  const DescriptionRequired: string := "Description is required"
  const QuantityPositive: string := "Quantity must be a positive number"
  const UnitPriceNonNegative: string := "Unit price must be non-negative"

  type Errors = map<string, seq<string>>

  /** The name of a line-item key as it appears in an error key. */
  function FieldName(field: Field): string {
    match field
    case Id => "id"
    case Description => "description"
    case Quantity => "quantity"
    case UnitPrice => "unitPrice"
    case Amount => "amount"
  }

  /** `items.${index}.${field}`. */
  function RowKey(index: nat, field: Field): string {
    "items." + NatToString(index) + "." + FieldName(field)
  }

  /** `item.description.trim() && parseFloat(item.quantity) > 0 && parseFloat(item.unitPrice) >= 0`. */
  predicate UsableRow(it: LineItem) {
    !IsBlank(it.description)
    && ParseNumber(it.quantity).Some? && ParseNumber(it.quantity).value > 0.0
    && ParseNumber(it.unitPrice).Some? && ParseNumber(it.unitPrice).value >= 0.0
  }

  /** `items.some(...)`. */
  predicate HasUsableRow(items: seq<LineItem>) {
    exists i :: 0 <= i < |items| && UsableRow(items[i])
  }

  /** A row is checked once it has a description or a unit price. */
  predicate RowChecked(it: LineItem) {
    !IsBlank(it.description) || it.unitPrice != ""
  }

  /** The per-row checks. A NaN quantity or unit price compares false and passes. */
  predicate FieldFails(it: LineItem, field: Field) {
    match field
    case Description => IsBlank(it.description)
    case Quantity => it.quantity == "" || (ParseNumber(it.quantity).Some? && ParseNumber(it.quantity).value <= 0.0)
    case UnitPrice => it.unitPrice != "" && ParseNumber(it.unitPrice).Some? && ParseNumber(it.unitPrice).value < 0.0
    case _ => false
  }

  function FieldMessage(field: Field): string {
    match field
    case Description => DescriptionRequired
    case Quantity => QuantityPositive
    case UnitPrice => UnitPriceNonNegative
    case _ => ""
  }

  /** `dueDate && issueDate && new Date(dueDate) < new Date(issueDate)`. */
  predicate DueBeforeIssue(f: FormState) {
    f.dueDate != "" && f.issueDate != "" && JsDateLt(f.dueDate, f.issueDate)
  }

  /** The form-level errors, set before the rows are looked at. */
  function HeaderErrors(f: FormState): Errors {
    var m1: Errors := if IsBlank(f.invoiceNumber) then map["invoiceNumber" := [InvoiceNumberRequired]] else map[];
    var m2 := if f.issueDate == "" then m1["issueDate" := [IssueDateRequired]] else m1;
    var m3 := if DueBeforeIssue(f) then m2["dueDate" := [DueDateBeforeIssue]] else m2;
    if !HasUsableRow(f.items) then m3["items" := [ValidItemRequired]] else m3
  }

  /** One check of a row. */
  function FieldErrors(m: Errors, index: nat, it: LineItem, field: Field): Errors {
    if FieldFails(it, field) then m[RowKey(index, field) := [FieldMessage(field)]] else m
  }

  /** The errors of one row of the `forEach`. */
  function RowErrors(m: Errors, index: nat, it: LineItem): Errors {
    if RowChecked(it) then
      FieldErrors(FieldErrors(FieldErrors(m, index, it, Description), index, it, Quantity), index, it, UnitPrice)
    else m
  }

  /** The errors after the header checks and the first n rows. */
  function ErrorsThrough(f: FormState, n: nat): Errors
    requires n <= |f.items|
  {
    if n == 0 then HeaderErrors(f) else RowErrors(ErrorsThrough(f, n - 1), n - 1, f.items[n - 1])
  }

  function FormErrors(f: FormState): Errors {
    ErrorsThrough(f, |f.items|)
  }

  /** A row passes its own checks. */
  predicate RowOk(it: LineItem) {
    !RowChecked(it) || (!FieldFails(it, Description) && !FieldFails(it, Quantity) && !FieldFails(it, UnitPrice))
  }

  /** What the form accepts, stated field by field. */
  predicate FormOk(f: FormState) {
    !IsBlank(f.invoiceNumber) && f.issueDate != "" && !DueBeforeIssue(f) && HasUsableRow(f.items)
    && forall i :: 0 <= i < |f.items| ==> RowOk(f.items[i])
  }

  /** The body of the `forEach` over the rows. */
  method CheckRow(m: Errors, index: nat, item: LineItem) returns (errors: Errors)
    ensures errors == RowErrors(m, index, item)
  {
    errors := m;
    if RowChecked(item) {
      if FieldFails(item, Description) {
        errors := errors[RowKey(index, Description) := [DescriptionRequired]];
      }
      if FieldFails(item, Quantity) {
        errors := errors[RowKey(index, Quantity) := [QuantityPositive]];
      }
      if FieldFails(item, UnitPrice) {
        errors := errors[RowKey(index, UnitPrice) := [UnitPriceNonNegative]];
      }
    }
  }

  /** The header checks, one map update at a time, build `HeaderErrors`. */
  lemma HeaderErrorsSteps(f: FormState, m1: Errors, m2: Errors, m3: Errors, m4: Errors)
    requires m1 == if IsBlank(f.invoiceNumber) then map["invoiceNumber" := [InvoiceNumberRequired]] else map[]
    requires m2 == if f.issueDate == "" then m1["issueDate" := [IssueDateRequired]] else m1
    requires m3 == if DueBeforeIssue(f) then m2["dueDate" := [DueDateBeforeIssue]] else m2
    requires m4 == if !HasUsableRow(f.items) then m3["items" := [ValidItemRequired]] else m3
    ensures m4 == HeaderErrors(f)
  {
  }

  /** A row that passes its own checks can be added to an accepted form. */
  lemma FormOkWithRow(f: FormState, it: LineItem)
    requires FormOk(f) && RowOk(it)
    ensures FormOk(f.(items := f.items + [it]))
  {
    var items := f.items + [it];
    var g := f.(items := items);
    assert DueBeforeIssue(g) == DueBeforeIssue(f) by {
      assert g.dueDate == f.dueDate && g.issueDate == f.issueDate;
    }
    var k :| 0 <= k < |f.items| && UsableRow(f.items[k]);
    assert items[k] == f.items[k];
    assert HasUsableRow(items);
    forall i | 0 <= i < |items|
      ensures RowOk(items[i])
    {
      if i < |f.items| {
        assert items[i] == f.items[i];
      } else {
        assert items[i] == it;
      }
    }
  }

  /** `validateForm`: the error dictionary built check by check and row by row, and
      whether it stayed empty. */
  method ValidateForm(f: FormState) returns (valid: bool, errors: Errors)
    ensures errors == FormErrors(f)
    ensures valid <==> FormOk(f)
  {
    errors := map[];
    if IsBlank(f.invoiceNumber) {
      errors := errors["invoiceNumber" := [InvoiceNumberRequired]];
    }
    ghost var m1 := errors;
    if f.issueDate == "" {
      errors := errors["issueDate" := [IssueDateRequired]];
    }
    ghost var m2 := errors;
    if DueBeforeIssue(f) {
      errors := errors["dueDate" := [DueDateBeforeIssue]];
    }
    ghost var m3 := errors;
    var hasValidItems := HasUsableRow(f.items);
    if !hasValidItems {
      errors := errors["items" := [ValidItemRequired]];
    }
    HeaderErrorsSteps(f, m1, m2, m3, errors);
    var index := 0;
    while index < |f.items|
      invariant 0 <= index <= |f.items|
      invariant errors == ErrorsThrough(f, index)
    {
      errors := CheckRow(errors, index, f.items[index]);
      index := index + 1;
    }
    valid := |errors.Keys| == 0;
    FormErrorsEmptyIffOk(f);
  }

  /** A row adds an error exactly when it fails a check, and never removes one. */
  lemma RowErrorsEmpty(m: Errors, index: nat, it: LineItem)
    ensures m.Keys <= RowErrors(m, index, it).Keys
    ensures RowErrors(m, index, it) == map[] <==> m == map[] && RowOk(it)
  {
    var m1 := FieldErrors(m, index, it, Description);
    var m2 := FieldErrors(m1, index, it, Quantity);
    var m3 := FieldErrors(m2, index, it, UnitPrice);
    assert m.Keys <= m1.Keys <= m2.Keys <= m3.Keys;
    assert FieldFails(it, Description) ==> RowKey(index, Description) in m3;
    assert FieldFails(it, Quantity) ==> RowKey(index, Quantity) in m3;
    assert FieldFails(it, UnitPrice) ==> RowKey(index, UnitPrice) in m3;
    assert !FieldFails(it, Description) && !FieldFails(it, Quantity) && !FieldFails(it, UnitPrice) ==> m3 == m;
    if m != map[] {
      var k :| k in m;
      assert k in RowErrors(m, index, it);
    }
  }

  lemma {:induction false} ErrorsThroughEmpty(f: FormState, n: nat)
    requires n <= |f.items|
    ensures ErrorsThrough(f, n) == map[] <==> HeaderErrors(f) == map[] && forall i :: 0 <= i < n ==> RowOk(f.items[i])
  {
    if n > 0 {
      var prev := ErrorsThrough(f, n - 1);
      ErrorsThroughEmpty(f, n - 1);
      RowErrorsEmpty(prev, n - 1, f.items[n - 1]);
      assert ErrorsThrough(f, n) == RowErrors(prev, n - 1, f.items[n - 1]);
      assert (forall i :: 0 <= i < n ==> RowOk(f.items[i]))
        <==> (forall i :: 0 <= i < n - 1 ==> RowOk(f.items[i])) && RowOk(f.items[n - 1]);
    }
  }

  lemma HeaderErrorsEmpty(f: FormState)
    ensures HeaderErrors(f) == map[] <==>
      !IsBlank(f.invoiceNumber) && f.issueDate != "" && !DueBeforeIssue(f) && HasUsableRow(f.items)
  {
    var h := HeaderErrors(f);
    assert IsBlank(f.invoiceNumber) ==> "invoiceNumber" in h;
    assert f.issueDate == "" ==> "issueDate" in h;
    assert DueBeforeIssue(f) ==> "dueDate" in h;
    assert !HasUsableRow(f.items) ==> "items" in h;
  }

  /** The form is accepted exactly when no error was recorded. */
  lemma FormErrorsEmptyIffOk(f: FormState)
    ensures FormErrors(f) == map[] <==> FormOk(f)
    ensures |FormErrors(f).Keys| == 0 <==> FormOk(f)
  {
    ErrorsThroughEmpty(f, |f.items|);
    HeaderErrorsEmpty(f);
    if FormErrors(f) != map[] {
      var k :| k in FormErrors(f);
    }
  }

  /** Row keys start with "items." and are longer than any form-level key. */
  lemma RowKeyIsNoHeaderKey(index: nat, field: Field)
    ensures RowKey(index, field) != "invoiceNumber" && RowKey(index, field) != "issueDate"
    ensures RowKey(index, field) != "dueDate" && RowKey(index, field) != "items"
  {
    var k := RowKey(index, field);
    assert k[1] == 't' && k[5] == '.';
  }

  /** Different rows or fields give different keys. */
  lemma RowKeyInjective(i: nat, a: Field, j: nat, b: Field)
    ensures RowKey(i, a) == RowKey(j, b) ==> i == j && a == b
  {
    if RowKey(i, a) == RowKey(j, b) {
      var s, t := NatToString(i), NatToString(j);
      var k := RowKey(i, a);
      RowKeyDot(i, a);
      RowKeyDot(j, b);
      assert |s| == |t|;
      assert s == k[6..6 + |s|] == t;
      NatToStringInjective(i, j);
      assert FieldName(a) == k[7 + |s|..] == FieldName(b);
    }
  }

  /** The first '.' after "items." ends the row number. */
  lemma RowKeyDot(i: nat, a: Field)
    ensures DotIndex(RowKey(i, a)[6..]) == |NatToString(i)|
    ensures RowKey(i, a)[6..6 + |NatToString(i)|] == NatToString(i)
    ensures RowKey(i, a)[7 + |NatToString(i)|..] == FieldName(a)
  {
    var s, q := NatToString(i), FieldName(a);
    assert RowKey(i, a) == "items." + s + "." + q;
    JoinedSlices("items.", s, q);
    SplitsAtDot(s, q);
  }

  lemma JoinedSlices(p: string, s: string, q: string)
    ensures (p + s + "." + q)[|p|..] == s + "." + q
    ensures (p + s + "." + q)[|p|..|p| + |s|] == s
    ensures (p + s + "." + q)[|p| + |s| + 1..] == q
  {
    var k := p + s + "." + q;
    assert k == p + (s + "." + q);
    assert k == (p + s + ".") + q;
    assert |p + s + "."| == |p| + |s| + 1;
  }

  /** A row touches only its own three keys. */
  lemma RowErrorsKeepOtherKeys(m: Errors, index: nat, it: LineItem, key: string)
    requires key != RowKey(index, Description) && key != RowKey(index, Quantity) && key != RowKey(index, UnitPrice)
    ensures key in RowErrors(m, index, it) <==> key in m
    ensures key in m ==> RowErrors(m, index, it)[key] == m[key]
  {
  }

  /** The form-level keys are set by their own checks only, whatever the rows hold. */
  lemma {:induction false} HeaderKeysKept(f: FormState, n: nat, key: string)
    requires n <= |f.items|
    requires key == "invoiceNumber" || key == "issueDate" || key == "dueDate" || key == "items"
    ensures key in ErrorsThrough(f, n) <==> key in HeaderErrors(f)
    ensures key in HeaderErrors(f) ==> ErrorsThrough(f, n)[key] == HeaderErrors(f)[key]
  {
    if n > 0 {
      HeaderKeysKept(f, n - 1, key);
      RowKeyIsNoHeaderKey(n - 1, Description);
      RowKeyIsNoHeaderKey(n - 1, Quantity);
      RowKeyIsNoHeaderKey(n - 1, UnitPrice);
      RowErrorsKeepOtherKeys(ErrorsThrough(f, n - 1), n - 1, f.items[n - 1], key);
    }
  }

  /** Each form-level check sets its own key with its own message. */
  lemma FormLevelErrors(f: FormState)
    ensures "invoiceNumber" in FormErrors(f) <==> IsBlank(f.invoiceNumber)
    ensures "issueDate" in FormErrors(f) <==> f.issueDate == ""
    ensures "dueDate" in FormErrors(f) <==> DueBeforeIssue(f)
    ensures "items" in FormErrors(f) <==> !HasUsableRow(f.items)
    ensures "dueDate" in FormErrors(f) ==> FormErrors(f)["dueDate"] == [DueDateBeforeIssue]
    ensures "items" in FormErrors(f) ==> FormErrors(f)["items"] == [ValidItemRequired]
  {
    HeaderKeysKept(f, |f.items|, "invoiceNumber");
    HeaderKeysKept(f, |f.items|, "issueDate");
    HeaderKeysKept(f, |f.items|, "dueDate");
    HeaderKeysKept(f, |f.items|, "items");
  }

  /** The key of row j and a field is set by row `index` exactly when that is row j
      and the row is checked and fails that check. */
  lemma RowErrorsRowKey(m: Errors, index: nat, it: LineItem, j: nat, field: Field)
    ensures RowKey(j, field) in RowErrors(m, index, it) <==>
      RowKey(j, field) in m || (j == index && RowChecked(it) && FieldFails(it, field))
  {
    RowKeyInjective(j, field, index, Description);
    RowKeyInjective(j, field, index, Quantity);
    RowKeyInjective(j, field, index, UnitPrice);
  }

  /** A row key is set exactly for a checked row that fails that check; rows with neither
      a description nor a unit price get none. */
  lemma {:induction false} RowKeysSet(f: FormState, n: nat, j: nat, field: Field)
    requires n <= |f.items|
    ensures RowKey(j, field) in ErrorsThrough(f, n) <==>
      j < n && RowChecked(f.items[j]) && FieldFails(f.items[j], field)
  {
    if n > 0 {
      RowKeysSet(f, n - 1, j, field);
      RowKeysStep(f, n, j, field);
    } else {
      NoRowKeyInHeader(f, j, field);
    }
  }

  /** The header checks set no row key. */
  lemma NoRowKeyInHeader(f: FormState, j: nat, field: Field)
    ensures RowKey(j, field) !in ErrorsThrough(f, 0)
  {
    RowKeyIsNoHeaderKey(j, field);
    assert ErrorsThrough(f, 0) == HeaderErrors(f);
  }

  /** One more row adds its own failing keys to those of the rows before it. */
  lemma RowKeysStep(f: FormState, n: nat, j: nat, field: Field)
    requires 0 < n <= |f.items|
    requires RowKey(j, field) in ErrorsThrough(f, n - 1) <==>
      j < n - 1 && RowChecked(f.items[j]) && FieldFails(f.items[j], field)
    ensures RowKey(j, field) in ErrorsThrough(f, n) <==>
      j < n && RowChecked(f.items[j]) && FieldFails(f.items[j], field)
  {
    var prev := ErrorsThrough(f, n - 1);
    var it := f.items[n - 1];
    assert ErrorsThrough(f, n) == RowErrors(prev, n - 1, it);
    RowErrorsRowKey(prev, n - 1, it, j, field);
    var here := j == n - 1 && RowChecked(it) && FieldFails(it, field);
    var earlier := j < n - 1 && RowChecked(f.items[j]) && FieldFails(f.items[j], field);
    assert (j < n && RowChecked(f.items[j]) && FieldFails(f.items[j], field)) <==> earlier || here;
  }


  // ---------------------------------------------------------------------------------
  // preview

  /** `item.description.trim() || parseFloat(item.unitPrice) > 0`. */
  predicate ShownInPreview(it: LineItem) {
    !IsBlank(it.description) || (ParseNumber(it.unitPrice).Some? && ParseNumber(it.unitPrice).value > 0.0)
  }

  /** The rows the preview receives: exactly those with a description or a positive
      unit price, in form order. */
  function PreviewItems(items: seq<LineItem>): (r: seq<LineItem>)
    ensures forall i :: 0 <= i < |r| ==> r[i] in items && ShownInPreview(r[i])
    ensures forall i :: 0 <= i < |items| && ShownInPreview(items[i]) ==> items[i] in r
  {
    Filter(items, ShownInPreview)
  }

  /** An accepted form sends at least one row to the preview. */
  lemma AcceptedFormHasPreviewRow(f: FormState)
    requires FormOk(f)
    ensures |PreviewItems(f.items)| >= 1
  {
    var i :| 0 <= i < |f.items| && UsableRow(f.items[i]);
    assert ShownInPreview(f.items[i]);
  }
}
