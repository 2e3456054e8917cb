/** The writes of the invoice store: `createInvoice`, `updateInvoice`,
    `updateInvoiceStatus` and `deleteInvoice`. Each is a transaction on the database:
    it either applies completely or raises and leaves every table as it was. The
    changes are stated as functions on `Tables`, which the methods apply. */
module InvoiceStore {
  import opened Wrappers
  import opened Text
  import opened Seqs
  import opened Dates
  import opened SqlTypes
  import opened InvoicesSchema
  import opened InvoiceItemsSchema
  import opened Db
  import opened InvoiceQueries

  /** One line of `CreateInvoiceData.items`, as text. */
  datatype ItemData = ItemData(description: string, quantity: string, unitPrice: string, amount: string)

  /** `CreateInvoiceData`: the header columns as text and the lines. */
  datatype InvoiceData = InvoiceData(
    clientId: Option<nat>,
    invoiceNumber: string,
    issueDate: string,
    dueDate: Option<string>,
    subtotal: string,
    taxRate: Option<string>,
    taxAmount: Option<string>,
    total: string,
    notes: Option<string>,
    items: seq<ItemData>)

  const InvoiceNotFound: string := "Invoice not found"

  /** A nullable `date` column: null is stored as null, text must be a date.
      `None` means the value is rejected. */
  function DateColumn(v: Option<string>): Option<Option<string>> {
    match v
    case None => Some(None)
    case Some(s) => if SqlDate(s).Some? then Some(Some(s)) else None
  }

  /** A nullable `numeric` column; `None` means the value is rejected. */
  function NumericColumn(v: Option<string>, precision: nat): Option<Option<Numeric>> {
    match v
    case None => Some(None)
    case Some(s) => if NumericInput(s, precision).Some? then Some(NumericInput(s, precision)) else None
  }

  /** `row` with the header columns that create and update write, each value coerced to
      its column type (`value || null` for the optional ones); `None` when Postgres
      rejects one of them. */
  function WithHeader(row: InvoiceRow, data: InvoiceData, updatedAt: int): (r: Option<InvoiceRow>)
    ensures r.Some? ==> (r.value.id == row.id && r.value.userId == row.userId
                         && r.value.status == row.status && r.value.createdAt == row.createdAt
                         && r.value.invoiceNumber == data.invoiceNumber && r.value.clientId == data.clientId
                         && SqlDate(r.value.issueDate).Some?)
    ensures r.Some? ==> (r.value.issueDate == data.issueDate
                         && r.value.dueDate == NullIfEmpty(data.dueDate)
                         && r.value.subtotal == NumericInput(data.subtotal, MoneyPrecision)
                         && Some(r.value.taxRate) == NumericColumn(NullIfEmpty(data.taxRate), TaxRatePrecision)
                         && Some(r.value.taxAmount) == NumericColumn(NullIfEmpty(data.taxAmount), MoneyPrecision)
                         && Some(r.value.total) == NumericInput(data.total, MoneyPrecision)
                         && r.value.notes == NullIfEmpty(data.notes) && r.value.updatedAt == updatedAt)
    ensures r.None? <==> (SqlDate(data.issueDate).None? || DateColumn(NullIfEmpty(data.dueDate)).None?
                          || NumericColumn(NullIfEmpty(data.taxRate), TaxRatePrecision).None?
                          || NumericColumn(NullIfEmpty(data.taxAmount), MoneyPrecision).None?
                          || NumericInput(data.subtotal, MoneyPrecision).None?
                          || NumericInput(data.total, MoneyPrecision).None?)
  {
    var dueDate := DateColumn(NullIfEmpty(data.dueDate));
    var taxRate := NumericColumn(NullIfEmpty(data.taxRate), TaxRatePrecision);
    var taxAmount := NumericColumn(NullIfEmpty(data.taxAmount), MoneyPrecision);
    var subtotal := NumericInput(data.subtotal, MoneyPrecision);
    var total := NumericInput(data.total, MoneyPrecision);
    if SqlDate(data.issueDate).Some? && dueDate.Some? && taxRate.Some? && taxAmount.Some?
       && subtotal.Some? && total.Some?
    then Some(row.(clientId := data.clientId, invoiceNumber := data.invoiceNumber,
                   issueDate := data.issueDate, dueDate := dueDate.value,
                   subtotal := subtotal, taxRate := taxRate.value, taxAmount := taxAmount.value,
                   total := total.value, notes := NullIfEmpty(data.notes), updatedAt := updatedAt))
    else None
  }

  /** A line's numbers are accepted by their `numeric(10, 2)` columns. */
  predicate ItemAccepted(it: ItemData) {
    NumericInput(it.quantity, ItemNumericPrecision).Some?
    && NumericInput(it.unitPrice, ItemNumericPrecision).Some?
    && NumericInput(it.amount, ItemNumericPrecision).Some?
  }

  /** The item rows inserted for the lines, with ids counting up from `firstId`. */
  function ItemRowsOf(invoiceId: nat, firstId: nat, items: seq<ItemData>, createdAt: int): (r: Option<seq<ItemRow>>)
    ensures r.Some? <==> forall i :: 0 <= i < |items| ==> ItemAccepted(items[i])
    ensures r.Some? ==> |r.value| == |items|
    ensures r.Some? ==> forall i :: 0 <= i < |items| ==>
      r.value[i].id == firstId + i && r.value[i].invoiceId == invoiceId
      && r.value[i].description == items[i].description
      && Some(r.value[i].quantity) == NumericInput(items[i].quantity, ItemNumericPrecision)
      && Some(r.value[i].unitPrice) == NumericInput(items[i].unitPrice, ItemNumericPrecision)
      && Some(r.value[i].amount) == NumericInput(items[i].amount, ItemNumericPrecision)
    decreases |items|
  {
    if items == [] then Some([])
    else
      var it := items[0];
      var rest := ItemRowsOf(invoiceId, firstId + 1, items[1..], createdAt);
      assert forall i :: 1 <= i < |items| ==> items[i] == items[1..][i - 1];
      if ItemAccepted(it) && rest.Some? then
        Some([ItemRow(firstId, invoiceId, it.description,
                      NumericInput(it.quantity, ItemNumericPrecision).value,
                      NumericInput(it.unitPrice, ItemNumericPrecision).value,
                      NumericInput(it.amount, ItemNumericPrecision).value, createdAt)] + rest.value)
      else None
  }

  /** The invoice's client reference, when set, names an existing client. */
  predicate ClientPresent(clients: seq<ClientsSchema.ClientRow>, clientId: Option<nat>) {
    clientId.None? || clientId.value in ClientIds(clients)
  }

  /** Some invoice other than `except`, of any user, already carries the number. */
  predicate NumberTaken(t: seq<InvoiceRow>, number: string, except: Option<nat>) {
    exists j :: 0 <= j < |t| && t[j].invoiceNumber == number && (except.None? || t[j].id != except.value)
  }

  /** The index of the user's invoice with that id. */
  function FindOwned(t: seq<InvoiceRow>, userId: nat, invoiceId: nat): (r: Option<nat>)
    ensures r.Some? ==> r.value < |t| && t[r.value].id == invoiceId && t[r.value].userId == userId
    ensures r.None? <==> forall j :: 0 <= j < |t| ==> !(t[j].id == invoiceId && t[j].userId == userId)
  {
    if t == [] then None
    else if t[0].id == invoiceId && t[0].userId == userId then Some(0)
    else
      var rest := FindOwned(t[1..], userId, invoiceId);
      assert forall j :: 1 <= j < |t| ==> t[j] == t[1..][j - 1];
      match rest
      case Some(k) => Some(k + 1)
      case None => None
  }

  // ---------------------------------------------------------------------------------
  // createInvoice

  /** The row a new invoice starts from: a draft owned by the user. */
  function NewInvoice(id: nat, userId: nat, now: int): InvoiceRow {
    InvoiceRow(id, userId, None, "", DefaultInvoiceStatus, "", None, None, None, None,
               Hundredths(0), None, now, now)
  }

  /** The rows `createInvoice` inserts in one transaction: the invoice under the next
      id and one item per line under the ids after it; `None` when the insert raises. */
  function CreatedRows(s: Tables, userId: nat, data: InvoiceData, now: int): (r: Option<(InvoiceRow, seq<ItemRow>)>)
    ensures r.Some? ==> (r.value.0.id == s.nextId && r.value.0.userId == userId
                         && r.value.0.invoiceNumber == data.invoiceNumber && r.value.0.clientId == data.clientId
                         && r.value.0.status == Draft && r.value.0.createdAt == now)
    ensures r.Some? ==> |r.value.1| == |data.items|
    ensures r.Some? ==> forall i :: 0 <= i < |data.items| ==>
      r.value.1[i].id == s.nextId + 1 + i && r.value.1[i].invoiceId == s.nextId
      && r.value.1[i].description == data.items[i].description
  {
    var id := s.nextId;
    var row := WithHeader(NewInvoice(id, userId, now), data, now);
    var rows := ItemRowsOf(id, id + 1, data.items, now);
    if userId in ProfileIds(s.profiles) && ClientPresent(s.clients, data.clientId)
       && !NumberTaken(s.invoices, data.invoiceNumber, None) && row.Some? && rows.Some?
    then Some((row.value, rows.value))
    else None
  }

  /** The created rows are the header written over a fresh draft and the lines as item
      rows, in their order. */
  lemma CreatedRowsAre(s: Tables, userId: nat, data: InvoiceData, now: int)
    requires CreatedRows(s, userId, data, now).Some?
    ensures Some(CreatedRows(s, userId, data, now).value.0) == WithHeader(NewInvoice(s.nextId, userId, now), data, now)
    ensures Some(CreatedRows(s, userId, data, now).value.1) == ItemRowsOf(s.nextId, s.nextId + 1, data.items, now)
  {
  }

  /** A create raises exactly when the user has no profile, the client does not exist,
      any user already holds the number, or a value is not accepted by its column. */
  lemma CreateRaisesWhen(s: Tables, userId: nat, data: InvoiceData, now: int)
    ensures CreatedRows(s, userId, data, now).None? <==>
      userId !in ProfileIds(s.profiles) || !ClientPresent(s.clients, data.clientId)
      || NumberTaken(s.invoices, data.invoiceNumber, None)
      || WithHeader(NewInvoice(s.nextId, userId, now), data, now).None?
      || exists i :: 0 <= i < |data.items| && !ItemAccepted(data.items[i])
  {
  }

  /** The tables with a new invoice row and its item rows appended. */
  function Appended(s: Tables, row: InvoiceRow, rows: seq<ItemRow>): Tables {
    s.(invoices := s.invoices + [row], items := s.items + rows, nextId := s.nextId + 1 + |rows|)
  }

  /** A created invoice keeps every key unique and every reference valid. */
  lemma CreateKeepsValid(s: Tables, userId: nat, data: InvoiceData, now: int)
    requires ValidTables(s)
    requires CreatedRows(s, userId, data, now).Some?
    ensures var r := CreatedRows(s, userId, data, now).value; ValidTables(Appended(s, r.0, r.1))
  {
    var r := CreatedRows(s, userId, data, now).value;
    CreateChecks(s, userId, data, now);
    AppendKeepsKeys(s, r.0, r.1);
    AppendKeepsReferences(s, r.0, r.1);
  }

  /** What the database checked before a create succeeded. */
  lemma CreateChecks(s: Tables, userId: nat, data: InvoiceData, now: int)
    requires CreatedRows(s, userId, data, now).Some?
    ensures var r := CreatedRows(s, userId, data, now).value;
      !NumberTaken(s.invoices, r.0.invoiceNumber, None)
      && r.0.userId in ProfileIds(s.profiles) && ClientPresent(s.clients, r.0.clientId)
  {
  }

  /** The keys after a new invoice row and its item rows are appended. */
  lemma AppendKeepsKeys(s: Tables, row: InvoiceRow, rows: seq<ItemRow>)
    requires KeysHold(s.profiles, s.clients, s.invoices, s.items, s.subscriptions, s.nextId)
    requires row.id == s.nextId && !NumberTaken(s.invoices, row.invoiceNumber, None)
    requires forall i :: 0 <= i < |rows| ==> rows[i].id == s.nextId + 1 + i
    ensures KeysHold(s.profiles, s.clients, s.invoices + [row], s.items + rows, s.subscriptions,
                     s.nextId + 1 + |rows|)
  {
    var n := s.nextId + 1 + |rows|;
    AppendFreshKeys(s.invoices, [row], InvoiceKey, s.nextId, s.nextId);
    AppendFreshKeys(s.items, rows, ItemKey, s.nextId + 1, s.nextId + 1);
    assert DistinctBy(s.invoices + [row], InvoiceNumberKey);
    assert ProfileKeysHold(s.profiles, n) && ClientKeysHold(s.clients, n);
    assert SubscriptionKeysHold(s.subscriptions, n);
  }

  /** The references after a new invoice row and its item rows are appended. */
  lemma AppendKeepsReferences(s: Tables, row: InvoiceRow, rows: seq<ItemRow>)
    requires ReferencesHold(s.profiles, s.clients, s.invoices, s.items, s.subscriptions)
    requires row.userId in ProfileIds(s.profiles) && ClientPresent(s.clients, row.clientId)
    requires forall i :: 0 <= i < |rows| ==> rows[i].invoiceId == row.id
    ensures ReferencesHold(s.profiles, s.clients, s.invoices + [row], s.items + rows, s.subscriptions)
  {
    var t := s.invoices + [row];
    assert row in t;
    forall it | it in s.items + rows
      ensures it.invoiceId in InvoiceIds(t)
    {
      if it in s.items {
        var v :| v in s.invoices && v.id == it.invoiceId;
        assert v in t;
      } else {
        var k :| 0 <= k < |rows| && rows[k] == it;
      }
    }
  }

  /** The next id is above every id in the table, so no item refers to it yet. */
  lemma NextIdIsFresh(s: Tables)
    requires ValidTables(s)
    ensures s.nextId !in InvoiceIds(s.invoices)
    ensures forall it :: it in s.items ==> it.invoiceId != s.nextId
  {
    forall v | v in s.invoices ensures v.id < s.nextId {
      var j :| 0 <= j < |s.invoices| && s.invoices[j] == v;
      assert Keys(s.invoices, InvoiceKey)[j] == v.id;
    }
  }

  /** Items appended for a fresh invoice id are exactly that invoice's items. */
  lemma AppendedItemsOf(items: seq<ItemRow>, rows: seq<ItemRow>, id: nat)
    requires forall it :: it in items ==> it.invoiceId != id
    requires forall i :: 0 <= i < |rows| ==> rows[i].invoiceId == id
    ensures ItemsOf(items + rows, id) == rows
  {
    var keep := (it: ItemRow) => it.invoiceId == id;
    FilterConcat(items, rows, keep);
    forall k | 0 <= k < |items| ensures !keep(items[k]) {
      assert items[k] in items;
    }
    FilterKeepsNone(items, keep);
    FilterKeepsAll(rows, keep);
  }

  /** A created invoice is a new draft of the user under an id no invoice had, and its
      items are the lines in their order. */
  lemma CreatedInvoice(s: Tables, userId: nat, data: InvoiceData, now: int)
    requires ValidTables(s)
    requires CreatedRows(s, userId, data, now).Some?
    ensures var r := CreatedRows(s, userId, data, now).value;
      var s' := Appended(s, r.0, r.1);
      r.0.id !in InvoiceIds(s.invoices)
      && r.0.status == Draft && r.0.userId == userId
      && s'.invoices == s.invoices + [r.0]
      && Some(r.0) == WithHeader(NewInvoice(s.nextId, userId, now), data, now)
      && ItemsOf(s'.items, r.0.id) == ItemRowsOf(s.nextId, s.nextId + 1, data.items, now).value
      && |ItemsOf(s'.items, r.0.id)| == |data.items|
      && forall i :: 0 <= i < |data.items| ==>
           ItemsOf(s'.items, r.0.id)[i].description == data.items[i].description
  {
    var r := CreatedRows(s, userId, data, now).value;
    CreatedRowsAre(s, userId, data, now);
    NextIdIsFresh(s);
    AppendedItemsOf(s.items, r.1, r.0.id);
  }

  /** The per-user check can pass while the insert still fails: invoice numbers are
      unique over the whole table, so a number another user holds is refused. */
  lemma OtherUsersNumberBlocksInsert(s: Tables, userId: nat, data: InvoiceData, now: int, j: nat)
    requires ValidTables(s)
    requires j < |s.invoices| && s.invoices[j].invoiceNumber == data.invoiceNumber
    requires s.invoices[j].userId != userId
    ensures !CheckInvoiceNumberExists(s.invoices, userId, data.invoiceNumber, None)
    ensures CreatedRows(s, userId, data, now).None?
  {
    assert forall k :: 0 <= k < |s.invoices| && k != j ==>
      InvoiceNumberKey(s.invoices[k]) != InvoiceNumberKey(s.invoices[j]);
  }

  /** After a successful create the user's check reports the number as taken. */
  lemma CreatedNumberExists(s: Tables, userId: nat, data: InvoiceData, now: int)
    requires CreatedRows(s, userId, data, now).Some?
    ensures var r := CreatedRows(s, userId, data, now).value;
      CheckInvoiceNumberExists(Appended(s, r.0, r.1).invoices, userId, data.invoiceNumber, None)
  {
    var r := CreatedRows(s, userId, data, now).value;
    assert Appended(s, r.0, r.1).invoices[|s.invoices|] == r.0;
  }

  /** `createInvoice`: the new invoice's id, or the error it raised. */
  method CreateInvoice(db: Database, userId: nat, data: InvoiceData, now: int) returns (r: Outcome<nat>)
    requires db.Valid()
    modifies db
    ensures db.Valid()
    ensures var created := CreatedRows(old(db.State()), userId, data, now);
      (r.Ok? <==> created.Some?)
      && (r.Ok? ==> r.value == old(db.nextId)
                    && db.State() == Appended(old(db.State()), created.value.0, created.value.1))
      && (r.Raised? ==> db.State() == old(db.State()))
  {
    var created := CreatedRows(db.State(), userId, data, now);
    if created.None? {
      return Raised(DatabaseError);
    }
    CreateKeepsValid(db.State(), userId, data, now);
    var next := Appended(db.State(), created.value.0, created.value.1);
    r := Ok(db.nextId);
    db.invoices, db.items, db.nextId := next.invoices, next.items, next.nextId;
    assert db.State() == next;
  }

  // ---------------------------------------------------------------------------------
  // updateInvoice

  /** `updateInvoice`: after the ownership check, the header columns are rewritten and
      the invoice's items are replaced by the lines, whatever the invoice's status. */
  function ReplaceInvoice(s: Tables, userId: nat, invoiceId: nat, data: InvoiceData, now: int): (r: Outcome<Tables>)
    ensures r.Ok? ==> r.value == s.(invoices := r.value.invoices, items := r.value.items, nextId := r.value.nextId)
  {
    match FindOwned(s.invoices, userId, invoiceId)
    case None => Raised(InvoiceNotFound)
    case Some(j) =>
      var row := WithHeader(s.invoices[j], data, now);
      var rows := ItemRowsOf(invoiceId, s.nextId, data.items, now);
      if ClientPresent(s.clients, data.clientId) && !NumberTaken(s.invoices, data.invoiceNumber, Some(invoiceId))
         && row.Some? && rows.Some?
      then Ok(s.(invoices := s.invoices[j := row.value],
                 items := ItemsNotOf(s.items, invoiceId) + rows.value,
                 nextId := s.nextId + |data.items|))
      else Raised(DatabaseError)
  }

  /** An update keeps every key unique and every reference valid. */
  lemma ReplaceKeepsValid(s: Tables, userId: nat, invoiceId: nat, data: InvoiceData, now: int)
    requires ValidTables(s)
    requires ReplaceInvoice(s, userId, invoiceId, data, now).Ok?
    ensures ValidTables(ReplaceInvoice(s, userId, invoiceId, data, now).value)
  {
    var j := FindOwned(s.invoices, userId, invoiceId).value;
    var row := WithHeader(s.invoices[j], data, now).value;
    var rows := ItemRowsOf(invoiceId, s.nextId, data.items, now).value;
    RewriteKeepsKeys(s, j, row, rows);
    RewriteKeepsReferences(s, j, row, rows);
  }

  /** The keys after one invoice's header is rewritten and its items replaced. */
  lemma RewriteKeepsKeys(s: Tables, j: nat, row: InvoiceRow, rows: seq<ItemRow>)
    requires KeysHold(s.profiles, s.clients, s.invoices, s.items, s.subscriptions, s.nextId)
    requires j < |s.invoices| && row.id == s.invoices[j].id
    requires !NumberTaken(s.invoices, row.invoiceNumber, Some(row.id))
    requires forall i :: 0 <= i < |rows| ==> rows[i].id == s.nextId + i
    ensures KeysHold(s.profiles, s.clients, s.invoices[j := row], ItemsNotOf(s.items, row.id) + rows,
                     s.subscriptions, s.nextId + |rows|)
  {
    var n := s.nextId + |rows|;
    var keep := (it: ItemRow) => it.invoiceId != row.id;
    ReplaceRowKeepsKeys(s.invoices, j, row, s.nextId);
    FilterDistinctBy(s.items, keep, ItemKey);
    FilterIdsBelow(s.items, keep, ItemKey, s.nextId);
    AppendFreshKeys(ItemsNotOf(s.items, row.id), rows, ItemKey, s.nextId, s.nextId);
    assert InvoiceKeysHold(s.invoices[j := row], n) by {
      var ids := Keys(s.invoices[j := row], InvoiceKey);
      assert IdsBelow(ids, s.nextId);
      forall a | 0 <= a < |ids| ensures ids[a] < n { }
    }
    assert ProfileKeysHold(s.profiles, n) && ClientKeysHold(s.clients, n);
    assert SubscriptionKeysHold(s.subscriptions, n);
  }

  /** The references after one invoice's header is rewritten and its items replaced. */
  lemma RewriteKeepsReferences(s: Tables, j: nat, row: InvoiceRow, rows: seq<ItemRow>)
    requires ReferencesHold(s.profiles, s.clients, s.invoices, s.items, s.subscriptions)
    requires j < |s.invoices| && row.id == s.invoices[j].id && row.userId == s.invoices[j].userId
    requires ClientPresent(s.clients, row.clientId)
    requires forall i :: 0 <= i < |rows| ==> rows[i].invoiceId == row.id
    ensures ReferencesHold(s.profiles, s.clients, s.invoices[j := row], ItemsNotOf(s.items, row.id) + rows,
                           s.subscriptions)
  {
    var t := s.invoices[j := row];
    var kept := ItemsNotOf(s.items, row.id);
    ReplaceRowKeepsReferences(s, j, row);
    SameIdsAfterRewrite(s.invoices, j, row);
    assert t[j] == row;
    assert row in t;
    forall it | it in kept + rows
      ensures it.invoiceId in InvoiceIds(t)
    {
      if it in kept {
        var k :| 0 <= k < |s.items| && s.items[k] == it;
      } else {
        var k :| 0 <= k < |rows| && rows[k] == it;
      }
    }
  }

  /** Rewriting one row under its own id keeps the ids as they were. */
  lemma SameIdsAfterRewrite(t: seq<InvoiceRow>, j: nat, row: InvoiceRow)
    requires j < |t| && row.id == t[j].id
    ensures InvoiceIds(t[j := row]) == InvoiceIds(t)
  {
    var t' := t[j := row];
    forall x | x in InvoiceIds(t) ensures x in InvoiceIds(t') {
      var v :| v in t && v.id == x;
      var k :| 0 <= k < |t| && t[k] == v;
      assert t'[k] in t';
    }
    forall x | x in InvoiceIds(t') ensures x in InvoiceIds(t) {
      var v :| v in t' && v.id == x;
      var k :| 0 <= k < |t'| && t'[k] == v;
      assert t[k] in t;
    }
  }

  /** A rewritten header keeps the id and takes a number no other row has. */
  lemma ReplaceRowKeepsKeys(t: seq<InvoiceRow>, j: nat, row: InvoiceRow, nextId: nat)
    requires InvoiceKeysHold(t, nextId)
    requires j < |t| && row.id == t[j].id
    requires !NumberTaken(t, row.invoiceNumber, Some(row.id))
    ensures InvoiceKeysHold(t[j := row], nextId)
  {
    var t' := t[j := row];
    forall a, b | 0 <= a < b < |t'|
      ensures InvoiceKey(t'[a]) != InvoiceKey(t'[b]) && InvoiceNumberKey(t'[a]) != InvoiceNumberKey(t'[b])
    {
      assert InvoiceKey(t[a]) != InvoiceKey(t[b]);
      if a == j {
        assert t[b].id != row.id;
      } else if b == j {
        assert t[a].id != row.id;
      }
    }
    var ids := Keys(t, InvoiceKey);
    assert IdsBelow(ids, nextId);
    var ids' := Keys(t', InvoiceKey);
    forall a | 0 <= a < |ids'| ensures ids'[a] < nextId {
      assert ids[a] == t[a].id;
    }
    assert IdsBelow(ids', nextId);
  }

  /** A rewritten header keeps the invoice's profile and names an existing client. */
  lemma ReplaceRowKeepsReferences(s: Tables, j: nat, row: InvoiceRow)
    requires ReferencesHold(s.profiles, s.clients, s.invoices, s.items, s.subscriptions)
    requires j < |s.invoices| && row.userId == s.invoices[j].userId
    requires ClientPresent(s.clients, row.clientId)
    ensures forall v :: v in s.invoices[j := row] ==> v.userId in ProfileIds(s.profiles)
    ensures forall v :: v in s.invoices[j := row] && v.clientId.Some? ==> v.clientId.value in ClientIds(s.clients)
  {
    var t' := s.invoices[j := row];
    forall v | v in t'
      ensures v.userId in ProfileIds(s.profiles)
      ensures v.clientId.Some? ==> v.clientId.value in ClientIds(s.clients)
    {
      var k :| 0 <= k < |t'| && t'[k] == v;
      if k != j { assert s.invoices[k] in s.invoices; }
      else { assert s.invoices[j] in s.invoices; }
    }
  }

  /** An update fails with "Invoice not found" exactly when the user owns no invoice
      with that id, and otherwise never looks at the status. */
  lemma UpdateNotFound(s: Tables, userId: nat, invoiceId: nat, data: InvoiceData, now: int)
    ensures ReplaceInvoice(s, userId, invoiceId, data, now) == Raised(InvoiceNotFound)
      <==> forall j :: 0 <= j < |s.invoices| ==> !(s.invoices[j].id == invoiceId && s.invoices[j].userId == userId)
  {
  }

  /** Changing an invoice's status does not change whether it can be updated: sent, paid
      and cancelled invoices are edited like drafts. */
  lemma UpdateIgnoresStatus(s: Tables, userId: nat, invoiceId: nat, data: InvoiceData, now: int,
                            j: nat, status: InvoiceStatus)
    requires j < |s.invoices| && s.invoices[j].id == invoiceId && s.invoices[j].userId == userId
    ensures var other := s.(invoices := s.invoices[j := s.invoices[j].(status := status)]);
      ReplaceInvoice(other, userId, invoiceId, data, now).Ok?
      == ReplaceInvoice(s, userId, invoiceId, data, now).Ok?
  {
    var t' := s.invoices[j := s.invoices[j].(status := status)];
    assert forall k :: 0 <= k < |t'| ==>
      t'[k].id == s.invoices[k].id && t'[k].userId == s.invoices[k].userId
      && t'[k].invoiceNumber == s.invoices[k].invoiceNumber;
    var k := FindOwned(s.invoices, userId, invoiceId).value;
    var k' := FindOwned(t', userId, invoiceId).value;
    assert NumberTaken(t', data.invoiceNumber, Some(invoiceId))
      == NumberTaken(s.invoices, data.invoiceNumber, Some(invoiceId));
    assert WithHeader(t'[k'], data, now).Some? == WithHeader(s.invoices[k], data, now).Some?;
  }

  /** After an update the invoice keeps its id, owner, status and creation time, its
      items are exactly the new lines, and every other invoice's items are untouched. */
  lemma ReplacedItems(s: Tables, userId: nat, invoiceId: nat, data: InvoiceData, now: int, other: nat)
    requires ReplaceInvoice(s, userId, invoiceId, data, now).Ok?
    requires other != invoiceId
    ensures var s' := ReplaceInvoice(s, userId, invoiceId, data, now).value;
      var j := FindOwned(s.invoices, userId, invoiceId).value;
      s'.invoices[j].id == invoiceId && s'.invoices[j].userId == userId
      && s'.invoices[j].status == s.invoices[j].status
      && s'.invoices[j].createdAt == s.invoices[j].createdAt
      && |ItemsOf(s'.items, invoiceId)| == |data.items|
      && (forall i :: 0 <= i < |data.items| ==>
            ItemsOf(s'.items, invoiceId)[i].description == data.items[i].description)
      && ItemsOf(s'.items, invoiceId) == ItemRowsOf(invoiceId, s.nextId, data.items, now).value
      && s'.invoices[j] == WithHeader(s.invoices[j], data, now).value
      && |s'.invoices| == |s.invoices|
      && (forall k :: 0 <= k < |s.invoices| && k != j ==> s'.invoices[k] == s.invoices[k])
      && ItemsOf(s'.items, other) == ItemsOf(s.items, other)
  {
    var rows := ItemRowsOf(invoiceId, s.nextId, data.items, now).value;
    ReplacementItemsOf(s.items, rows, invoiceId, other);
  }

  /** After the old items are dropped and the new ones added, the invoice's items are
      the new ones and another invoice's items are unchanged. */
  lemma ReplacementItemsOf(items: seq<ItemRow>, rows: seq<ItemRow>, invoiceId: nat, other: nat)
    requires forall i :: 0 <= i < |rows| ==> rows[i].invoiceId == invoiceId
    requires other != invoiceId
    ensures ItemsOf(ItemsNotOf(items, invoiceId) + rows, invoiceId) == rows
    ensures ItemsOf(ItemsNotOf(items, invoiceId) + rows, other) == ItemsOf(items, other)
  {
    var kept := ItemsNotOf(items, invoiceId);
    var theirs := (it: ItemRow) => it.invoiceId == other;
    AppendedItemsOf(kept, rows, invoiceId);
    FilterConcat(kept, rows, theirs);
    FilterKeepsNone(rows, theirs);
    FilterOfFilter(items, invoiceId, other);
  }

  /** Dropping one invoice's items leaves another invoice's items as they were. */
  lemma {:induction false} FilterOfFilter(t: seq<ItemRow>, gone: nat, other: nat)
    requires gone != other
    ensures ItemsOf(ItemsNotOf(t, gone), other) == ItemsOf(t, other)
  {
    if t != [] {
      var head := if t[0].invoiceId != gone then [t[0]] else [];
      assert ItemsNotOf(t, gone) == head + ItemsNotOf(t[1..], gone);
      FilterConcat(head, ItemsNotOf(t[1..], gone), (it: ItemRow) => it.invoiceId == other);
      FilterOfFilter(t[1..], gone, other);
      assert ItemsOf(t, other) == (if t[0].invoiceId == other then [t[0]] else []) + ItemsOf(t[1..], other);
      assert ItemsOf(head, other) == (if t[0].invoiceId == other then [t[0]] else []) by {
        if head != [] { assert head[1..] == []; }
      }
    }
  }

  /** `updateInvoice`: `Ok` with nothing, or the error it raised. */
  method UpdateInvoice(db: Database, userId: nat, invoiceId: nat, data: InvoiceData, now: int)
    returns (r: Outcome<()>)
    requires db.Valid()
    modifies db
    ensures db.Valid()
    ensures var next := ReplaceInvoice(old(db.State()), userId, invoiceId, data, now);
      (r.Ok? <==> next.Ok?) && (r.Raised? ==> r.error == next.error)
      && db.State() == (if next.Ok? then next.value else old(db.State()))
  {
    var next := ReplaceInvoice(db.State(), userId, invoiceId, data, now);
    if next.Raised? {
      return Raised(next.error);
    }
    ReplaceKeepsValid(db.State(), userId, invoiceId, data, now);
    ghost var before := db.State();
    db.invoices, db.items, db.nextId := next.value.invoices, next.value.items, next.value.nextId;
    assert db.State() == before.(invoices := db.invoices, items := db.items, nextId := db.nextId);
    r := Ok(());
  }

  // ---------------------------------------------------------------------------------
  // updateInvoiceStatus

  /** `updateInvoiceStatus`: the status of the user's invoice with that id is set; no
      other column changes and no check is made on the old status. */
  function WithStatus(t: seq<InvoiceRow>, userId: nat, invoiceId: nat, status: InvoiceStatus): (r: seq<InvoiceRow>)
    ensures |r| == |t|
    ensures forall i :: 0 <= i < |t| ==> r[i].(status := t[i].status) == t[i]
    ensures forall i :: 0 <= i < |t| ==>
      r[i].status == (if t[i].id == invoiceId && t[i].userId == userId then status else t[i].status)
  {
    seq(|t|, i requires 0 <= i < |t| =>
      if t[i].id == invoiceId && t[i].userId == userId then t[i].(status := status) else t[i])
  }

  /** An id the user does not own changes nothing. */
  lemma ForeignStatusUpdateIsNoOp(t: seq<InvoiceRow>, userId: nat, invoiceId: nat, status: InvoiceStatus)
    requires forall j :: 0 <= j < |t| ==> !(t[j].id == invoiceId && t[j].userId == userId)
    ensures WithStatus(t, userId, invoiceId, status) == t
  {
  }

  /** Any status can follow any other, and setting it twice is setting it once. */
  lemma StatusUpdateIdempotent(t: seq<InvoiceRow>, userId: nat, invoiceId: nat, status: InvoiceStatus)
    ensures WithStatus(WithStatus(t, userId, invoiceId, status), userId, invoiceId, status)
      == WithStatus(t, userId, invoiceId, status)
  {
  }

  /** `updateInvoiceStatus` on the database. */
  method UpdateInvoiceStatus(db: Database, userId: nat, invoiceId: nat, status: InvoiceStatus)
    requires db.Valid()
    modifies db
    ensures db.Valid()
    ensures db.State() == old(db.State()).(invoices := WithStatus(old(db.invoices), userId, invoiceId, status))
  {
    var t := WithStatus(db.invoices, userId, invoiceId, status);
    assert forall i :: 0 <= i < |t| ==> t[i].id == db.invoices[i].id && t[i].invoiceNumber == db.invoices[i].invoiceNumber;
    StatusKeepsReferences(db.State(), userId, invoiceId, status);
    db.invoices := t;
  }

  lemma StatusKeepsReferences(s: Tables, userId: nat, invoiceId: nat, status: InvoiceStatus)
    requires ReferencesHold(s.profiles, s.clients, s.invoices, s.items, s.subscriptions)
    ensures ReferencesHold(s.profiles, s.clients, WithStatus(s.invoices, userId, invoiceId, status),
                           s.items, s.subscriptions)
  {
    var t := WithStatus(s.invoices, userId, invoiceId, status);
    forall v | v in t
      ensures v.userId in ProfileIds(s.profiles)
      ensures v.clientId.Some? ==> v.clientId.value in ClientIds(s.clients)
    {
      var k :| 0 <= k < |t| && t[k] == v;
      assert s.invoices[k] in s.invoices;
    }
    forall it | it in s.items
      ensures it.invoiceId in InvoiceIds(t)
    {
      var v :| v in s.invoices && v.id == it.invoiceId;
      var k :| 0 <= k < |s.invoices| && s.invoices[k] == v;
      assert t[k] in t;
    }
  }

  // ---------------------------------------------------------------------------------
  // deleteInvoice

  /** `{ success, error? }`. */
  datatype DeleteResult = DeleteResult(success: bool, error: Option<string>)

  const OnlyDrafts: string := "Only draft invoices can be deleted"

  /** The answer of `deleteInvoice`: not found, not a draft, or deleted. */
  function DeleteOutcome(t: seq<InvoiceRow>, userId: nat, invoiceId: nat): (r: DeleteResult)
    ensures r.success <==> r.error.None?
    ensures r.error == Some(InvoiceNotFound) <==>
      forall j :: 0 <= j < |t| ==> !(t[j].id == invoiceId && t[j].userId == userId)
    ensures r.success ==> exists j :: 0 <= j < |t| && t[j].id == invoiceId && t[j].userId == userId
                                     && t[j].status == Draft
  {
    match FindOwned(t, userId, invoiceId)
    case None => DeleteResult(false, Some(InvoiceNotFound))
    case Some(j) =>
      if t[j].status != Draft then DeleteResult(false, Some(OnlyDrafts))
      else DeleteResult(true, None)
  }

  /** The user's invoice with that id is removed, and its items with it. */
  function WithoutInvoice(s: Tables, invoiceId: nat): Tables {
    s.(invoices := Filter(s.invoices, (v: InvoiceRow) => v.id != invoiceId),
       items := ItemsNotOf(s.items, invoiceId))
  }

  /** Removing an invoice and its items keeps every key unique and leaves no item
      without its invoice. */
  lemma WithoutInvoiceKeepsValid(s: Tables, invoiceId: nat)
    requires ValidTables(s)
    ensures ValidTables(WithoutInvoice(s, invoiceId))
  {
    var t := WithoutInvoice(s, invoiceId);
    WithoutInvoiceKeepsKeys(s, invoiceId);
    WithoutInvoiceKeepsItemReferences(s, invoiceId);
    forall v | v in t.invoices ensures v.userId in ProfileIds(t.profiles) && (v.clientId.Some? ==> v.clientId.value in ClientIds(t.clients)) {
      var k :| 0 <= k < |t.invoices| && t.invoices[k] == v;
      assert v in s.invoices;
    }
  }

  lemma WithoutInvoiceKeepsKeys(s: Tables, invoiceId: nat)
    requires KeysHold(s.profiles, s.clients, s.invoices, s.items, s.subscriptions, s.nextId)
    ensures var t := WithoutInvoice(s, invoiceId);
      KeysHold(t.profiles, t.clients, t.invoices, t.items, t.subscriptions, t.nextId)
  {
    var keepV := (v: InvoiceRow) => v.id != invoiceId;
    var keepI := (it: ItemRow) => it.invoiceId != invoiceId;
    FilterDistinctBy(s.invoices, keepV, InvoiceKey);
    FilterDistinctBy(s.invoices, keepV, InvoiceNumberKey);
    FilterIdsBelow(s.invoices, keepV, InvoiceKey, s.nextId);
    FilterDistinctBy(s.items, keepI, ItemKey);
    FilterIdsBelow(s.items, keepI, ItemKey, s.nextId);
  }

  lemma WithoutInvoiceKeepsItemReferences(s: Tables, invoiceId: nat)
    requires forall it :: it in s.items ==> it.invoiceId in InvoiceIds(s.invoices)
    ensures var t := WithoutInvoice(s, invoiceId);
      forall it :: it in t.items ==> it.invoiceId in InvoiceIds(t.invoices)
  {
    var t := Filter(s.invoices, (v: InvoiceRow) => v.id != invoiceId);
    forall it | it in ItemsNotOf(s.items, invoiceId)
      ensures it.invoiceId in InvoiceIds(t)
    {
      var v :| v in s.invoices && v.id == it.invoiceId;
      var m :| 0 <= m < |s.invoices| && s.invoices[m] == v;
      assert v in t;
    }
  }

  /** A deleted invoice is gone together with its items, and every other invoice
      remains. */
  lemma DeletedInvoiceIsGone(s: Tables, invoiceId: nat)
    ensures invoiceId !in InvoiceIds(WithoutInvoice(s, invoiceId).invoices)
    ensures ItemsOf(WithoutInvoice(s, invoiceId).items, invoiceId) == []
    ensures forall v :: v in s.invoices && v.id != invoiceId ==> v in WithoutInvoice(s, invoiceId).invoices
  {
    var kept := ItemsNotOf(s.items, invoiceId);
    forall k | 0 <= k < |kept| ensures kept[k].invoiceId != invoiceId { }
    FilterKeepsNone(kept, (it: ItemRow) => it.invoiceId == invoiceId);
    forall v | v in s.invoices && v.id != invoiceId
      ensures v in WithoutInvoice(s, invoiceId).invoices
    {
      var k :| 0 <= k < |s.invoices| && s.invoices[k] == v;
    }
  }

  /** `deleteInvoice`: a draft of the user is deleted with its items; otherwise nothing
      changes. */
  method DeleteInvoice(db: Database, userId: nat, invoiceId: nat) returns (r: DeleteResult)
    requires db.Valid()
    modifies db
    ensures db.Valid()
    ensures r == DeleteOutcome(old(db.invoices), userId, invoiceId)
    ensures db.State() == (if r.success then WithoutInvoice(old(db.State()), invoiceId) else old(db.State()))
  {
    r := DeleteOutcome(db.invoices, userId, invoiceId);
    if r.success {
      WithoutInvoiceKeepsValid(db.State(), invoiceId);
      var next := WithoutInvoice(db.State(), invoiceId);
      db.invoices, db.items := next.invoices, next.items;
    }
  }
}
