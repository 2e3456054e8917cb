/** The zod schemas that check invoice and client input on the server: `lineItemSchema`,
    `invoiceSchema` with its due-date refinement, and `clientSchema`. A schema yields
    the list of issues zod collects, in the order it finds them; `safeParse` succeeds
    exactly when that list is empty, and `flatten().fieldErrors` groups the messages by
    the first segment of their path. */
module InvoiceValidation {
  import opened Wrappers
  import opened Text
  import opened Numbers
  import opened Dates
  import opened LineItems

  /** One zod issue: the first segment of its path and its message. */
  datatype Issue = Issue(field: string, message: string)

  /** The parsed `items` value: an array of line items, or JSON of any other shape. */
  datatype ItemsValue = ItemList(items: seq<LineItem>) | WrongShape

  /** The invoice fields as the actions pass them to the schema. */
  datatype InvoiceInput = InvoiceInput(
    clientId: Option<string>,
    invoiceNumber: string,
    issueDate: string,
    dueDate: Option<string>,
    taxRate: Option<string>,
    notes: Option<string>,
    items: ItemsValue)

  /** The client fields as the client action passes them to the schema. */
  datatype ClientInput = ClientInput(
    name: string,
    email: Option<string>,
    phone: Option<string>,
    company: Option<string>,
    address: Option<string>)

  const DescriptionRequired: string := "Description is required"
  const QuantityRequired: string := "Quantity is required"
  const QuantityPositive: string := "Quantity must be a positive number"
  const UnitPriceRequired: string := "Unit price is required"
  const UnitPriceNonNegative: string := "Unit price must be a non-negative number"
  const InvoiceNumberRequired: string := "Invoice number is required"
  const IssueDateRequired: string := "Issue date is required"
  const TaxRateNonNegative: string := "Tax rate must be a non-negative number"
  const ItemsRequired: string := "At least one line item is required"
  const DueDateBeforeIssue: string := "Due date must be on or after issue date"
  const ClientNameRequired: string := "Client name is required"
  const InvalidEmail: string := "Invalid email address"
  /** A placeholder message for `items` JSON that is not an array of line items; zod's own
      type messages for such input are not modelled. */
  const InvalidItems: string := "Invalid input"

  /** `!isNaN(parseFloat(v)) && parseFloat(v) > 0`. */
  predicate PositiveNumber(v: string) {
    ParseNumber(v).Some? && ParseNumber(v).value > 0.0
  }

  /** `!isNaN(parseFloat(v)) && parseFloat(v) >= 0`. */
  predicate NonNegativeNumber(v: string) {
    ParseNumber(v).Some? && ParseNumber(v).value >= 0.0
  }

  /** An issue when the check fails. */
  function Check(ok: bool, field: string, message: string): (r: seq<Issue>)
    ensures r == [] <==> ok
    ensures forall x :: x in r ==> x == Issue(field, message)
  {
    if ok then [] else [Issue(field, message)]
  }

  /** `lineItemSchema` inside `items`: every issue is reported under "items". A string's
      refinement runs even when its `min(1)` failed. */
  function LineItemIssues(it: LineItem): (r: seq<Issue>)
    ensures forall x :: x in r ==> x.field == "items"
  {
    Check(|it.description| >= 1, "items", DescriptionRequired)
    + Check(|it.quantity| >= 1, "items", QuantityRequired)
    + Check(PositiveNumber(it.quantity), "items", QuantityPositive)
    + Check(|it.unitPrice| >= 1, "items", UnitPriceRequired)
    + Check(NonNegativeNumber(it.unitPrice), "items", UnitPriceNonNegative)
  }

  /** A valid line item: a description, a quantity above zero and a unit price of at
      least zero; `amount` may be any string. */
  predicate LineItemValid(it: LineItem) {
    it.description != "" && PositiveNumber(it.quantity) && NonNegativeNumber(it.unitPrice)
  }

  lemma LineItemIssuesIffInvalid(it: LineItem)
    ensures LineItemIssues(it) == [] <==> LineItemValid(it)
  {
  }

  /** The amount is never checked: a line item's validity does not depend on it. */
  lemma AmountIsUnconstrained(it: LineItem, amount: string)
    ensures LineItemIssues(it.(amount := amount)) == LineItemIssues(it)
  {
  }

  /** The issues of every element, in order. */
  function ItemsIssues(items: seq<LineItem>): (r: seq<Issue>)
    ensures r == [] <==> forall i :: 0 <= i < |items| ==> LineItemValid(items[i])
    decreases |items|
  {
    if items == [] then []
    else
      LineItemIssuesIffInvalid(items[0]);
      assert forall i :: 1 <= i < |items| ==> items[i] == items[1..][i - 1];
      LineItemIssues(items[0]) + ItemsIssues(items[1..])
  }

  /** The tax rate is absent or empty, or a number of at least zero; there is no upper
      bound. */
  predicate TaxRateOk(taxRate: Option<string>) {
    taxRate.None? || taxRate.value == "" || NonNegativeNumber(taxRate.value)
  }

  /** The object-level refinement: with both dates present the due date must not come
      before the issue date, as JavaScript dates; an unreadable date fails it. */
  predicate DueDateOk(input: InvoiceInput) {
    !(input.dueDate.Some? && input.dueDate.value != "" && input.issueDate != "")
    || JsDateGe(input.dueDate.value, input.issueDate)
  }

  /** `invoiceSchema`: the field issues in declaration order, then the refinement, which
      zod skips when `items` has the wrong shape. */
  function InvoiceIssues(input: InvoiceInput): seq<Issue> {
    Check(|input.invoiceNumber| >= 1, "invoiceNumber", InvoiceNumberRequired)
    + Check(|input.issueDate| >= 1, "issueDate", IssueDateRequired)
    + Check(TaxRateOk(input.taxRate), "taxRate", TaxRateNonNegative)
    + (match input.items
       case WrongShape => [Issue("items", InvalidItems)]
       case ItemList(items) => Check(|items| >= 1, "items", ItemsRequired) + ItemsIssues(items))
    + (if input.items.WrongShape? then [] else Check(DueDateOk(input), "dueDate", DueDateBeforeIssue))
  }

  /** A valid invoice: a number, an issue date, an acceptable tax rate, at least one line
      item and every line item valid, and no due date before the issue date. */
  predicate InvoiceValid(input: InvoiceInput) {
    input.invoiceNumber != "" && input.issueDate != "" && TaxRateOk(input.taxRate)
    && input.items.ItemList? && |input.items.items| >= 1
    && (forall i :: 0 <= i < |input.items.items| ==> LineItemValid(input.items.items[i]))
    && DueDateOk(input)
  }

  lemma InvoiceIssuesIffInvalid(input: InvoiceInput)
    ensures InvoiceIssues(input) == [] <==> InvoiceValid(input)
  {
  }

  /** One invalid line item makes the whole invoice invalid. */
  lemma InvalidItemRejects(items: seq<LineItem>, i: nat)
    requires i < |items| && !LineItemValid(items[i])
    ensures forall input: InvoiceInput :: input.items == ItemList(items) ==> !InvoiceValid(input)
  {
  }

  /** A due date before the issue date is reported at the path dueDate; a missing due
      date never is. */
  lemma DueDateIssue(input: InvoiceInput)
    requires input.items.ItemList?
    ensures Issue("dueDate", DueDateBeforeIssue) in InvoiceIssues(input) <==>
      input.dueDate.Some? && input.dueDate.value != "" && input.issueDate != ""
      && !JsDateGe(input.dueDate.value, input.issueDate)
    ensures input.dueDate.None? ==> Issue("dueDate", DueDateBeforeIssue) !in InvoiceIssues(input)
  {
    var issue := Issue("dueDate", DueDateBeforeIssue);
    var c1 := Check(|input.invoiceNumber| >= 1, "invoiceNumber", InvoiceNumberRequired);
    var c2 := Check(|input.issueDate| >= 1, "issueDate", IssueDateRequired);
    var c3 := Check(TaxRateOk(input.taxRate), "taxRate", TaxRateNonNegative);
    var c4 := Check(|input.items.items| >= 1, "items", ItemsRequired) + ItemsIssues(input.items.items);
    var tail := Check(DueDateOk(input), "dueDate", DueDateBeforeIssue);
    ItemsFieldIsItems(input.items.items);
    assert issue !in c1 && issue !in c2 && issue !in c3 && issue !in c4;
    assert InvoiceIssues(input) == c1 + c2 + c3 + c4 + tail;
    assert issue in tail <==> !DueDateOk(input);
  }

  /** Every issue of a line item is filed under "items". */
  lemma {:induction false} ItemsFieldIsItems(items: seq<LineItem>)
    ensures forall x :: x in ItemsIssues(items) ==> x.field == "items"
    decreases |items|
  {
    if items != [] {
      ItemsFieldIsItems(items[1..]);
      assert ItemsIssues(items) == LineItemIssues(items[0]) + ItemsIssues(items[1..]);
    }
  }

  // ---------------------------------------------------------------------------------
  // clientSchema

  // zod's e-mail pattern, case-insensitive:
  //   local part  [A-Z0-9_'+\-.]* [A-Z0-9_+-], not starting with '.', no ".." anywhere
  //   domain      ([A-Z0-9][A-Z0-9\-]* '.')+ [A-Z]{2,}

  predicate IsLetter(c: char) { 'a' <= c <= 'z' || 'A' <= c <= 'Z' }

  predicate IsAlphaNum(c: char) { IsLetter(c) || IsDigit(c) }

  /** A character the local part may hold. */
  predicate IsLocalChar(c: char) {
    IsAlphaNum(c) || c == '_' || c == '\'' || c == '+' || c == '-' || c == '.'
  }

  /** The part before '@': local characters, not starting with '.', ending with neither
      '.' nor an apostrophe, and with no two dots in a row. */
  predicate EmailLocal(s: string) {
    s != [] && s[0] != '.' && s[|s| - 1] != '.' && s[|s| - 1] != '\''
    && (forall i :: 0 <= i < |s| ==> IsLocalChar(s[i]))
    && (forall i :: 0 < i < |s| ==> !(s[i - 1] == '.' && s[i] == '.'))
  }

  /** One domain label: a letter or digit, then letters, digits and hyphens. */
  predicate EmailLabel(s: string) {
    s != [] && IsAlphaNum(s[0]) && forall i :: 0 < i < |s| ==> IsAlphaNum(s[i]) || s[i] == '-'
  }

  /** The top-level domain: two letters or more. */
  predicate TopLevelDomain(s: string) {
    |s| >= 2 && forall i :: 0 <= i < |s| ==> IsLetter(s[i])
  }

  /** The part after '@': one or more labels, each followed by '.', then the top-level
      domain. */
  predicate EmailDomain(s: string)
    decreases |s|
  {
    var k := DotIndex(s);
    k < |s| && EmailLabel(s[..k]) && (TopLevelDomain(s[k + 1..]) || EmailDomain(s[k + 1..]))
  }

  /** `z.string().email()`: a local part and a domain around an '@'. */
  predicate IsEmail(s: string) {
    exists k :: 0 <= k < |s| && s[k] == '@' && EmailLocal(s[..k]) && EmailDomain(s[k + 1..])
  }

  /** Addresses the pattern accepts and refuses: a one-letter top-level domain, a '#' in
      the local part, two dots in a row, a leading dot and a domain without a dot are all
      refused. */
  lemma EmailExamples()
    ensures IsEmail("o'neil+bills@mail.example.com")
    ensures !IsEmail("a@b.c") && !IsEmail("a@x")
    ensures !IsEmail("a#b@x.io") && !IsEmail("a..b@x.io") && !IsEmail(".a@x.io")
  {
    AcceptedEmail();
    ShortDomainsRefused();
    LocalPartsRefused();
  }

  lemma AcceptedEmail()
    ensures IsEmail("o'neil+bills@mail.example.com")
  {
    var s := "o'neil+bills@mail.example.com";
    assert s[..12] == "o'neil+bills" && s[13..] == "mail.example.com" && s[12] == '@';
    assert EmailLocal("o'neil+bills");
    ExampleDomain();
  }

  lemma ExampleDomain()
    ensures EmailDomain("mail.example.com")
  {
    var domain := "mail.example.com";
    assert domain == "mail" + "." + "example.com";
    DotIndexAfter("mail", "example.com");
    assert domain[..4] == "mail" && domain[5..] == "example.com";
    assert EmailLabel("mail");
    SecondLevelDomain();
  }

  lemma SecondLevelDomain()
    ensures EmailDomain("example.com")
  {
    var rest := "example.com";
    assert rest == "example" + "." + "com";
    DotIndexAfter("example", "com");
    assert rest[..7] == "example" && rest[8..] == "com";
    assert EmailLabel("example") && TopLevelDomain("com");
  }

  lemma ShortDomainsRefused()
    ensures !IsEmail("a@b.c") && !IsEmail("a@x")
  {
    assert DotIndex("c") == 1 && DotIndex("x") == 1 by {
      assert "c"[1..] == [] && "x"[1..] == [];
    }
    assert DotIndex("b.c") == 1 by { assert "b.c"[1..] == ".c"; }
    assert "b.c"[2..] == "c";
    assert !EmailDomain("b.c");
    assert !EmailDomain("x");
    assert "a@b.c"[2..] == "b.c" && "a@x"[2..] == "x";
  }

  lemma LocalPartsRefused()
    ensures !IsEmail("a#b@x.io") && !IsEmail("a..b@x.io") && !IsEmail(".a@x.io")
  {
    assert !EmailLocal("a#b") by { assert !IsLocalChar("a#b"[1]); }
    assert "a#b" + "@" + "x.io" == "a#b@x.io";
    RefusedByLocal("a#b", "x.io");
    assert !EmailLocal("a..b") by { assert "a..b"[1] == '.' && "a..b"[2] == '.'; }
    assert "a..b" + "@" + "x.io" == "a..b@x.io";
    RefusedByLocal("a..b", "x.io");
    assert !EmailLocal(".a");
    assert ".a" + "@" + "x.io" == ".a@x.io";
    RefusedByLocal(".a", "x.io");
  }

  /** With a single '@', a local part the pattern refuses refuses the address. */
  lemma RefusedByLocal(local: string, domain: string)
    requires !EmailLocal(local)
    requires forall i :: 0 <= i < |local| ==> local[i] != '@'
    requires forall i :: 0 <= i < |domain| ==> domain[i] != '@'
    ensures !IsEmail(local + "@" + domain)
  {
    var s := local + "@" + domain;
    assert forall k :: 0 <= k < |s| && s[k] == '@' ==> k == |local|;
    assert s[..|local|] == local;
  }

  /** `clientSchema`: a name, and an e-mail that is absent, empty or matching the e-mail pattern. */
  function ClientIssues(input: ClientInput): seq<Issue> {
    Check(|input.name| >= 1, "name", ClientNameRequired)
    + Check(input.email.None? || input.email.value == "" || IsEmail(input.email.value), "email", InvalidEmail)
  }

  predicate ClientValid(input: ClientInput) {
    input.name != "" && (input.email.None? || input.email.value == "" || IsEmail(input.email.value))
  }

  lemma ClientIssuesIffInvalid(input: ClientInput)
    ensures ClientIssues(input) == [] <==> ClientValid(input)
  {
  }

  /** The flattened client errors name exactly the fields that failed. */
  lemma ClientErrorKeys(input: ClientInput)
    ensures "name" in FieldErrors(ClientIssues(input)) <==> input.name == ""
    ensures "email" in FieldErrors(ClientIssues(input))
      <==> !(input.email.None? || input.email.value == "" || IsEmail(input.email.value))
  {
    var nameCheck := Check(|input.name| >= 1, "name", ClientNameRequired);
    var emailCheck := Check(input.email.None? || input.email.value == "" || IsEmail(input.email.value),
                            "email", InvalidEmail);
    var issues := nameCheck + emailCheck;
    assert ClientIssues(input) == issues;
    assert forall k :: 0 <= k < |issues| ==> issues[k].field == (if k < |nameCheck| then "name" else "email");
    if input.name == "" {
      assert issues[0].field == "name";
    }
    if emailCheck != [] {
      assert issues[|issues| - 1].field == "email";
    }
  }

  // ---------------------------------------------------------------------------------
  // flatten

  /** `error.flatten().fieldErrors`: the messages grouped by field, in issue order. */
  function FieldErrors(issues: seq<Issue>): (m: map<string, seq<string>>)
    ensures forall f :: f in m <==> exists k :: 0 <= k < |issues| && issues[k].field == f
    decreases |issues|
  {
    if issues == [] then map[]
    else
      var rest := FieldErrors(issues[..|issues| - 1]);
      var last := issues[|issues| - 1];
      assert forall k :: 0 <= k < |issues| - 1 ==> issues[..|issues| - 1][k] == issues[k];
      rest[last.field := (if last.field in rest then rest[last.field] else []) + [last.message]]
  }

  /** Each message of an issue is listed under its field. */
  lemma {:induction false} FieldErrorsListMessages(issues: seq<Issue>, k: nat)
    requires k < |issues|
    ensures issues[k].field in FieldErrors(issues)
    ensures issues[k].message in FieldErrors(issues)[issues[k].field]
    decreases |issues|
  {
    var init := issues[..|issues| - 1];
    if k < |issues| - 1 {
      assert init[k] == issues[k];
      FieldErrorsListMessages(init, k);
    }
  }

  /** Parsing fails exactly when some field has an error. */
  lemma FieldErrorsEmptyIffNoIssues(issues: seq<Issue>)
    ensures FieldErrors(issues) == map[] <==> issues == []
  {
    if issues != [] {
      assert issues[0].field in FieldErrors(issues);
    }
  }
}
