/** The invoice actions: `createInvoiceAction` and `updateInvoiceAction`, which run a
    fixed chain of checks and then write the invoice with the totals the server works
    out; `deleteInvoiceAction`; and `updateInvoiceStatusAction`. The signed-in user is an
    input (`None` when nobody is signed in), and so are the clock (`now`) and the first
    instant of the current month (`monthStart`). */
module InvoiceActions {
  import opened Wrappers
  import opened Text
  import opened Numbers
  import opened Db
  import opened InvoicesSchema
  import opened LineItems
  import opened InvoiceValidation
  import opened InvoiceQueries
  import opened InvoiceStore
  import opened Usage
  import opened Tiers
  import opened SubscriptionQueries
  import InvoiceForm

  /** The `items` field after `JSON.parse`: text that is not JSON, or the value it
      denotes. An absent or empty field is parsed as "[]", that is `Parsed(ItemList([]))`. */
  datatype ItemsField = Malformed | Parsed(value: ItemsValue)

  /** The form's fields as text, `None` for a field it did not send; the client is the
      id the client selector submits. */
  datatype InvoiceFields = InvoiceFields(
    clientId: Option<nat>,
    invoiceNumber: Option<string>,
    issueDate: Option<string>,
    dueDate: Option<string>,
    taxRate: Option<string>,
    notes: Option<string>,
    items: ItemsField)

  /** `InvoiceActionState`, and the plain `{ success: true }` of delete and status. */
  datatype InvoiceActionState =
    | InvoiceFailed(error: string)
    | InvoiceRejected(fieldErrors: map<string, seq<string>>)
    | InvoiceSaved(invoiceId: nat)
    | InvoiceDone

  const CreateNotLoggedIn: string := "You must be logged in to create an invoice"
  const UpdateNotLoggedIn: string := "You must be logged in to update an invoice"
  const DeleteNotLoggedIn: string := "You must be logged in to delete an invoice"
  const InvalidItemsData: string := "Invalid line items data"
  const NumberExists: string := "This invoice number already exists"
  const CreateFailed: string := "Failed to create invoice. Please try again."
  const UpdateFailed: string := "Failed to update invoice. Please try again."

  /** The object the schema checks: `|| ""` for the number and the issue date,
      `|| undefined` for the other optional fields. */
  function RawInvoice(f: InvoiceFields, items: ItemsValue): InvoiceInput {
    InvoiceInput(if f.clientId.Some? then Some(NatToString(f.clientId.value)) else None,
                 OrEmpty(f.invoiceNumber), OrEmpty(f.issueDate), NullIfEmpty(f.dueDate),
                 NullIfEmpty(f.taxRate), NullIfEmpty(f.notes), items)
  }

  // ---------------------------------------------------------------------------------
  // The server's totals

  /** `parseFloat(item.amount)` for each line: the amount as sent, never recomputed. */
  function ServerAmounts(items: seq<LineItem>): (r: seq<Option<real>>)
    ensures |r| == |items| && forall i :: 0 <= i < |items| ==> r[i] == ParseNumber(items[i].amount)
  {
    seq(|items|, i requires 0 <= i < |items| => ParseNumber(items[i].amount))
  }

  /** `items.reduce((sum, item) => sum + parseFloat(item.amount), 0)`. */
  function ServerSubtotal(items: seq<LineItem>): (r: Option<real>)
    ensures r.None? <==> exists i :: 0 <= i < |items| && ParseNumber(items[i].amount).None?
  {
    var r := SumOf(ServerAmounts(items));
    assert r.None? ==> exists i :: 0 <= i < |items| && ParseNumber(items[i].amount).None? by {
      if r.None? {
        var i :| 0 <= i < |items| && ServerAmounts(items)[i].None?;
      }
    }
    r
  }

  /** `taxRate ? parseFloat(taxRate) : 0`: no rate, or an empty one, is no tax. */
  function ServerTaxRate(taxRate: Option<string>): Option<real> {
    if taxRate.Some? && taxRate.value != "" then ParseNumber(taxRate.value) else Some(0.0)
  }

  /** The three `toFixed(2)` texts the server stores; NaN prints as "NaN". */
  function ServerTotals(items: seq<LineItem>, taxRate: Option<string>): (t: InvoiceForm.Totals)
    ensures ServerSubtotal(items).None? ==> t == InvoiceForm.Totals("NaN", "NaN", "NaN")
    ensures ServerSubtotal(items).Some? && ServerTaxRate(taxRate).Some? ==>
      t == InvoiceForm.TotalsOf(ServerSubtotal(items).value, ServerTaxRate(taxRate).value)
  {
    match (ServerSubtotal(items), ServerTaxRate(taxRate))
    case (None, _) => InvoiceForm.Totals(ToFixed2(None), ToFixed2(None), ToFixed2(None))
    case (Some(s), None) => InvoiceForm.Totals(FixedNumber(s), ToFixed2(None), ToFixed2(None))
    case (Some(s), Some(rate)) => InvoiceForm.TotalsOf(s, rate)
  }

  /** The subtotal adds up the amounts as sent: two lists with the same amounts give
      the same totals whatever their quantities and unit prices. */
  lemma TotalsIgnoreQuantityAndPrice(a: seq<LineItem>, b: seq<LineItem>, taxRate: Option<string>)
    requires |a| == |b| && forall i :: 0 <= i < |a| ==> a[i].amount == b[i].amount
    ensures ServerTotals(a, taxRate) == ServerTotals(b, taxRate)
  {
    assert ServerAmounts(a) == ServerAmounts(b);
  }

  /** With every amount a number, the subtotal is their sum, and the stored texts read
      back as the subtotal, the tax on it and their sum, each rounded once from the
      unrounded value. */
  lemma ServerTotalsReadBack(items: seq<LineItem>, amounts: seq<real>, taxRate: Option<string>, rate: real)
    requires |amounts| == |items| && forall i :: 0 <= i < |items| ==> ParseNumber(items[i].amount) == Some(amounts[i])
    requires ServerTaxRate(taxRate) == Some(rate)
    ensures var t := ServerTotals(items, taxRate);
      var s := Sum(amounts);
      ParseNumber(t.subtotal) == Some(Round2(s))
      && ParseNumber(t.taxAmount) == Some(Round2(InvoiceForm.TaxOn(s, rate)))
      && ParseNumber(t.total) == Some(Round2(s + InvoiceForm.TaxOn(s, rate)))
  {
    SumOfNumbers(ServerAmounts(items), amounts);
    assert ServerSubtotal(items) == Some(Sum(amounts));
    var t := InvoiceForm.TotalsOf(Sum(amounts), rate);
    assert ServerTotals(items, taxRate) == t;
  }

  /** A tax rate the schema accepts is read as a number. */
  lemma AcceptedTaxRateIsANumber(taxRate: Option<string>)
    requires TaxRateOk(taxRate)
    ensures ServerTaxRate(taxRate).Some?
  {
  }

  /** When the editor kept every amount in step with its row and the schema accepts the
      tax rate, the server stores the very totals the form showed. */
  lemma FormAndServerTotalsAgree(items: seq<LineItem>, taxRate: string)
    requires AllAmountsShown(items)
    requires TaxRateOk(NullIfEmpty(Some(taxRate)))
    ensures ServerTotals(items, NullIfEmpty(Some(taxRate))) == InvoiceForm.Calculations(items, taxRate)
  {
    forall i | 0 <= i < |items|
      ensures ServerAmounts(items)[i] == InvoiceForm.AmountValues(items)[i]
    {
      AmountShownReadsBack(items[i]);
    }
    assert ServerAmounts(items) == InvoiceForm.AmountValues(items);
    assert ServerTaxRate(NullIfEmpty(Some(taxRate))) == Some(InvoiceForm.TaxRateValue(taxRate)) by {
      if taxRate == "" {
        assert ParseNumber("") == None;
      }
    }
  }

  /** The form and the server disagree on a row with an empty unit price: the form's
      check lets it through next to a usable row, the server's schema refuses any
      invoice that carries it. */
  lemma EmptyUnitPricePassesOnlyTheForm(f: InvoiceForm.FormState, it: LineItem)
    requires InvoiceForm.FormOk(f)
    requires !IsBlank(it.description) && PositiveNumber(it.quantity) && it.unitPrice == ""
    ensures InvoiceForm.FormOk(f.(items := f.items + [it]))
    ensures forall input: InvoiceInput :: input.items == ItemList(f.items + [it]) ==> !InvoiceValid(input)
  {
    assert ParseNumber("") == None;
    assert InvoiceForm.RowOk(it) && !LineItemValid(it);
    InvoiceForm.FormOkWithRow(f, it);
    assert (f.items + [it])[|f.items|] == it;
    InvalidItemRejects(f.items + [it], |f.items|);
  }

  // ---------------------------------------------------------------------------------
  // What the actions write

  function ItemDataOf(items: seq<LineItem>): (r: seq<ItemData>)
    ensures |r| == |items|
    ensures forall i :: 0 <= i < |items| ==>
      r[i] == ItemData(items[i].description, items[i].quantity, items[i].unitPrice, items[i].amount)
  {
    seq(|items|, i requires 0 <= i < |items| =>
      ItemData(items[i].description, items[i].quantity, items[i].unitPrice, items[i].amount))
  }

  function LinesOf(v: ItemsValue): seq<LineItem> {
    if v.ItemList? then v.items else []
  }

  /** The data passed to the store: the validated fields, the totals, and the lines
      without their editor ids. */
  function InvoiceDataOf(clientId: Option<nat>, input: InvoiceInput): InvoiceData {
    var items := LinesOf(input.items);
    var totals := ServerTotals(items, input.taxRate);
    InvoiceData(clientId, input.invoiceNumber, input.issueDate, input.dueDate, totals.subtotal,
                input.taxRate, Some(totals.taxAmount), totals.total, input.notes, ItemDataOf(items))
  }

  // ---------------------------------------------------------------------------------
  // createInvoiceAction

  /** The user's invoice gate: their tier, and this month's invoice count. */
  function InvoiceGate(s: Tables, userId: nat, monthStart: int): Decision {
    CanCreateInvoice(GetSubscriptionByUserId(s.subscriptions, userId),
                     MonthlyInvoiceCount(s.invoices, userId, monthStart))
  }

  /** The answer of `createInvoiceAction` and the tables after it. */
  function CreateOutcome(s: Tables, user: Option<nat>, f: InvoiceFields, monthStart: int, now: int)
    : (r: (InvoiceActionState, Tables))
    ensures !r.0.InvoiceSaved? ==> r.1 == s
    ensures r.0.InvoiceSaved? ==>
      user.Some? && |r.1.invoices| == |s.invoices| + 1 && r.1.invoices[..|s.invoices|] == s.invoices
      && r.1.invoices[|s.invoices|].userId == user.value && r.1.invoices[|s.invoices|].createdAt == now
  {
    match user
    case None => (InvoiceFailed(CreateNotLoggedIn), s)
    case Some(userId) =>
      var gate := InvoiceGate(s, userId, monthStart);
      if !gate.allowed then (InvoiceFailed(gate.reason.value), s)
      else match f.items
        case Malformed => (InvoiceFailed(InvalidItemsData), s)
        case Parsed(v) =>
          var input := RawInvoice(f, v);
          var issues := InvoiceIssues(input);
          if issues != [] then (InvoiceRejected(FieldErrors(issues)), s)
          else if CheckInvoiceNumberExists(s.invoices, userId, input.invoiceNumber, None)
          then (InvoiceRejected(map["invoiceNumber" := [NumberExists]]), s)
          else match CreatedRows(s, userId, InvoiceDataOf(f.clientId, input), now)
            case None => (InvoiceFailed(CreateFailed), s)
            case Some(rows) => (InvoiceSaved(s.nextId), Appended(s, rows.0, rows.1))
  }

  /** The checks run in this order and the first that fails decides the answer: signed
      in, the monthly quota, the items JSON, the schema, then the user's numbers. */
  lemma CreateGuardOrder(s: Tables, user: Option<nat>, f: InvoiceFields, monthStart: int, now: int)
    ensures var r := CreateOutcome(s, user, f, monthStart, now).0;
      (user.None? ==> r == InvoiceFailed(CreateNotLoggedIn))
      && (user.Some? && !InvoiceGate(s, user.value, monthStart).allowed ==>
            r == InvoiceFailed(InvoiceGate(s, user.value, monthStart).reason.value))
      && (user.Some? && InvoiceGate(s, user.value, monthStart).allowed && f.items.Malformed? ==>
            r == InvoiceFailed(InvalidItemsData))
      && (user.Some? && InvoiceGate(s, user.value, monthStart).allowed && f.items.Parsed?
          && !InvoiceValid(RawInvoice(f, f.items.value)) ==>
            r == InvoiceRejected(FieldErrors(InvoiceIssues(RawInvoice(f, f.items.value)))))
      && (user.Some? && InvoiceGate(s, user.value, monthStart).allowed && f.items.Parsed?
          && InvoiceValid(RawInvoice(f, f.items.value))
          && CheckInvoiceNumberExists(s.invoices, user.value, OrEmpty(f.invoiceNumber), None) ==>
            r == InvoiceRejected(map["invoiceNumber" := [NumberExists]]))
  {
    if f.items.Parsed? {
      InvoiceIssuesIffInvalid(RawInvoice(f, f.items.value));
    }
  }

  /** A create saves only what passed every check: a valid invoice of a signed-in user
      under the quota with a number the user does not hold yet; the new invoice is the
      user's draft under the next id, carrying that number. */
  lemma CreateSavedMeans(s: Tables, user: Option<nat>, f: InvoiceFields, monthStart: int, now: int)
    requires CreateOutcome(s, user, f, monthStart, now).0.InvoiceSaved?
    ensures user.Some? && InvoiceGate(s, user.value, monthStart).allowed
    ensures f.items.Parsed? && InvoiceValid(RawInvoice(f, f.items.value))
    ensures !CheckInvoiceNumberExists(s.invoices, user.value, OrEmpty(f.invoiceNumber), None)
    ensures var s' := CreateOutcome(s, user, f, monthStart, now).1;
      CreateOutcome(s, user, f, monthStart, now).0.invoiceId == s.nextId
      && |s'.invoices| == |s.invoices| + 1
      && s'.invoices[|s.invoices|].id == s.nextId && s'.invoices[|s.invoices|].userId == user.value
      && s'.invoices[|s.invoices|].status == Draft
      && s'.invoices[|s.invoices|].invoiceNumber == OrEmpty(f.invoiceNumber)
      && CheckInvoiceNumberExists(s'.invoices, user.value, OrEmpty(f.invoiceNumber), None)
  {
    var input := RawInvoice(f, f.items.value);
    InvoiceIssuesIffInvalid(input);
    CreatedNumberExists(s, user.value, InvoiceDataOf(f.clientId, input), now);
  }

  /** With a monthly quota, a create made this month never takes the user's count of
      this month's invoices past the quota. */
  lemma CreateKeepsMonthlyQuota(s: Tables, userId: nat, f: InvoiceFields, monthStart: int, now: int)
    requires now >= monthStart
    requires CreateOutcome(s, Some(userId), f, monthStart, now).0.InvoiceSaved?
    requires LimitsOf(UserTier(GetSubscriptionByUserId(s.subscriptions, userId))).maxInvoicesPerMonth.Some?
    ensures MonthlyInvoiceCount(CreateOutcome(s, Some(userId), f, monthStart, now).1.invoices, userId, monthStart)
      <= LimitsOf(UserTier(GetSubscriptionByUserId(s.subscriptions, userId))).maxInvoicesPerMonth.value
  {
    var r := CreateOutcome(s, Some(userId), f, monthStart, now);
    var row := r.1.invoices[|s.invoices|];
    assert r.1.invoices == s.invoices + [row];
    assert InvoiceGate(s, userId, monthStart).allowed;
    MonthlyCountAppend(s.invoices, row, userId, monthStart);
  }

  /** `createInvoiceAction`. */
  method CreateInvoiceAction(db: Database, user: Option<nat>, f: InvoiceFields, monthStart: int, now: int)
    returns (r: InvoiceActionState)
    requires db.Valid()
    modifies db
    ensures db.Valid()
    ensures (r, db.State()) == CreateOutcome(old(db.State()), user, f, monthStart, now)
  {
    if user.None? {
      return InvoiceFailed(CreateNotLoggedIn);
    }
    var userId := user.value;
    var gate := CanCreateInvoice(GetSubscriptionByUserId(db.subscriptions, userId),
                                 MonthlyInvoiceCount(db.invoices, userId, monthStart));
    if !gate.allowed {
      return InvoiceFailed(gate.reason.value);
    }
    if f.items.Malformed? {
      return InvoiceFailed(InvalidItemsData);
    }
    var input := RawInvoice(f, f.items.value);
    var issues := InvoiceIssues(input);
    if issues != [] {
      return InvoiceRejected(FieldErrors(issues));
    }
    if CheckInvoiceNumberExists(db.invoices, userId, input.invoiceNumber, None) {
      return InvoiceRejected(map["invoiceNumber" := [NumberExists]]);
    }
    var created := CreateInvoice(db, userId, InvoiceDataOf(f.clientId, input), now);
    if created.Raised? {
      return InvoiceFailed(CreateFailed);
    }
    r := InvoiceSaved(created.value);
  }

  // ---------------------------------------------------------------------------------
  // updateInvoiceAction

  /** The answer of `updateInvoiceAction` and the tables after it. */
  function UpdateOutcome(s: Tables, user: Option<nat>, invoiceId: nat, f: InvoiceFields, now: int)
    : (r: (InvoiceActionState, Tables))
    ensures !r.0.InvoiceSaved? ==> r.1 == s
    ensures r.0.InvoiceSaved? ==> r.0.invoiceId == invoiceId
  {
    match user
    case None => (InvoiceFailed(UpdateNotLoggedIn), s)
    case Some(userId) =>
      match f.items
      case Malformed => (InvoiceFailed(InvalidItemsData), s)
      case Parsed(v) =>
        var input := RawInvoice(f, v);
        var issues := InvoiceIssues(input);
        if issues != [] then (InvoiceRejected(FieldErrors(issues)), s)
        else if CheckInvoiceNumberExists(s.invoices, userId, input.invoiceNumber, Some(invoiceId))
        then (InvoiceRejected(map["invoiceNumber" := [NumberExists]]), s)
        else match ReplaceInvoice(s, userId, invoiceId, InvoiceDataOf(f.clientId, input), now)
          case Raised(_) => (InvoiceFailed(UpdateFailed), s)
          case Ok(next) => (InvoiceSaved(invoiceId), next)
  }

  /** The update makes no quota check: its answer does not depend on the user's
      subscription. */
  lemma UpdateSkipsQuota(s: Tables, user: Option<nat>, invoiceId: nat, f: InvoiceFields, now: int,
                         subscriptions: seq<SubscriptionsSchema.SubscriptionRow>)
    ensures UpdateOutcome(s.(subscriptions := subscriptions), user, invoiceId, f, now).0
      == UpdateOutcome(s, user, invoiceId, f, now).0
  {
    if user.Some? && f.items.Parsed? {
      var input := RawInvoice(f, f.items.value);
      var data := InvoiceDataOf(f.clientId, input);
      var s2 := s.(subscriptions := subscriptions);
      if InvoiceIssues(input) == [] && !CheckInvoiceNumberExists(s.invoices, user.value, input.invoiceNumber, Some(invoiceId)) {
        assert ReplaceInvoice(s2, user.value, invoiceId, data, now).Ok?
          == ReplaceInvoice(s, user.value, invoiceId, data, now).Ok?;
      }
    }
  }

  /** Keeping an invoice's own number is never reported as a duplicate: the check
      leaves the invoice itself out, and numbers are unique. */
  lemma OwnNumberIsNoDuplicate(s: Tables, userId: nat, invoiceId: nat, j: nat)
    requires ValidTables(s)
    requires j < |s.invoices| && s.invoices[j].id == invoiceId && s.invoices[j].userId == userId
    ensures !CheckInvoiceNumberExists(s.invoices, userId, s.invoices[j].invoiceNumber, Some(invoiceId))
  {
    assert forall k :: 0 <= k < |s.invoices| && k != j ==>
      InvoiceNumberKey(s.invoices[k]) != InvoiceNumberKey(s.invoices[j]);
  }

  /** The checks of an update run in order: signed in, the items JSON, the schema, then
      the user's other invoices' numbers. */
  lemma UpdateGuardOrder(s: Tables, user: Option<nat>, invoiceId: nat, f: InvoiceFields, now: int)
    ensures var r := UpdateOutcome(s, user, invoiceId, f, now).0;
      (user.None? ==> r == InvoiceFailed(UpdateNotLoggedIn))
      && (user.Some? && f.items.Malformed? ==> r == InvoiceFailed(InvalidItemsData))
      && (user.Some? && f.items.Parsed? && !InvoiceValid(RawInvoice(f, f.items.value)) ==>
            r == InvoiceRejected(FieldErrors(InvoiceIssues(RawInvoice(f, f.items.value)))))
      && (user.Some? && f.items.Parsed? && InvoiceValid(RawInvoice(f, f.items.value))
          && CheckInvoiceNumberExists(s.invoices, user.value, OrEmpty(f.invoiceNumber), Some(invoiceId)) ==>
            r == InvoiceRejected(map["invoiceNumber" := [NumberExists]]))
      && (r.InvoiceSaved? ==>
            user.Some? && f.items.Parsed? && InvoiceValid(RawInvoice(f, f.items.value))
            && ReplaceInvoice(s, user.value, invoiceId, InvoiceDataOf(f.clientId, RawInvoice(f, f.items.value)), now).Ok?)
  {
    if f.items.Parsed? {
      InvoiceIssuesIffInvalid(RawInvoice(f, f.items.value));
    }
  }

  /** `updateInvoiceAction`. */
  method UpdateInvoiceAction(db: Database, user: Option<nat>, invoiceId: nat, f: InvoiceFields, now: int)
    returns (r: InvoiceActionState)
    requires db.Valid()
    modifies db
    ensures db.Valid()
    ensures (r, db.State()) == UpdateOutcome(old(db.State()), user, invoiceId, f, now)
  {
    if user.None? {
      return InvoiceFailed(UpdateNotLoggedIn);
    }
    var userId := user.value;
    if f.items.Malformed? {
      return InvoiceFailed(InvalidItemsData);
    }
    var input := RawInvoice(f, f.items.value);
    var issues := InvoiceIssues(input);
    if issues != [] {
      return InvoiceRejected(FieldErrors(issues));
    }
    if CheckInvoiceNumberExists(db.invoices, userId, input.invoiceNumber, Some(invoiceId)) {
      return InvoiceRejected(map["invoiceNumber" := [NumberExists]]);
    }
    var updated := UpdateInvoice(db, userId, invoiceId, InvoiceDataOf(f.clientId, input), now);
    if updated.Raised? {
      return InvoiceFailed(UpdateFailed);
    }
    r := InvoiceSaved(invoiceId);
  }

  // ---------------------------------------------------------------------------------
  // deleteInvoiceAction and updateInvoiceStatusAction

  /** The answer of `deleteInvoiceAction` and the tables after it. */
  function DeleteActionOutcome(s: Tables, user: Option<nat>, invoiceId: nat): (r: (InvoiceActionState, Tables))
    ensures r.0 == InvoiceDone <==> user.Some? && DeleteOutcome(s.invoices, user.value, invoiceId).success
    ensures r.0.InvoiceFailed? ==>
      r.1 == s && (r.0.error == DeleteNotLoggedIn
                   || (user.Some? && Some(r.0.error) == DeleteOutcome(s.invoices, user.value, invoiceId).error))
    ensures r.0 == InvoiceDone || r.0.InvoiceFailed?
  {
    match user
    case None => (InvoiceFailed(DeleteNotLoggedIn), s)
    case Some(userId) =>
      var d := DeleteOutcome(s.invoices, userId, invoiceId);
      if !d.success then (InvoiceFailed(d.error.value), s)
      else (InvoiceDone, WithoutInvoice(s, invoiceId))
  }

  /** `deleteInvoiceAction`. */
  method DeleteInvoiceAction(db: Database, user: Option<nat>, invoiceId: nat) returns (r: InvoiceActionState)
    requires db.Valid()
    modifies db
    ensures db.Valid()
    ensures (r, db.State()) == DeleteActionOutcome(old(db.State()), user, invoiceId)
  {
    if user.None? {
      return InvoiceFailed(DeleteNotLoggedIn);
    }
    var d := DeleteInvoice(db, user.value, invoiceId);
    if !d.success {
      return InvoiceFailed(d.error.value);
    }
    r := InvoiceDone;
  }

  /** `updateInvoiceStatusAction`: without a user it throws; otherwise it sets the
      status through the store and answers success. */
  method UpdateInvoiceStatusAction(db: Database, user: Option<nat>, invoiceId: nat, status: InvoiceStatus)
    returns (r: Outcome<InvoiceActionState>)
    requires db.Valid()
    modifies db
    ensures db.Valid()
    ensures user.None? ==> r == Raised(UpdateNotLoggedIn) && db.State() == old(db.State())
    ensures user.Some? ==>
      r == Ok(InvoiceDone)
      && db.State() == old(db.State()).(invoices := WithStatus(old(db.invoices), user.value, invoiceId, status))
  {
    if user.None? {
      return Raised(UpdateNotLoggedIn);
    }
    UpdateInvoiceStatus(db, user.value, invoiceId, status);
    r := Ok(InvoiceDone);
  }
}
