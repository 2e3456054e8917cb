/** `getInvoices`: one page of a user's invoices, filtered by status and a search text,
    sorted by date or amount, each with its client and its items. The rows of the page
    are a function of the tables; the method gathers the items in one pass over the
    item table, as the source fills its `itemsByInvoice` dictionary. */
module InvoiceListing {
  import opened Wrappers
  import opened Text
  import opened Seqs
  import opened Dates
  import opened Numbers
  import opened SqlTypes
  import opened ClientsSchema
  import opened InvoicesSchema
  import opened InvoiceItemsSchema
  import opened Db
  import Sorting

  /** `InvoiceFilterParams`; every field may be absent. */
  datatype FilterParams = FilterParams(
    query: Option<string>,
    status: Option<string>,
    sort: Option<string>,
    page: Option<int>,
    pageSize: Option<int>)

  /** An invoice row with the client the left join found for it. */
  datatype Listed = Listed(invoice: InvoiceRow, client: Option<ClientRow>)

  datatype Metadata = Metadata(total: nat, page: int, pageSize: int, totalPages: int)

  /** One entry of the result: the invoice, its client and its items. */
  datatype InvoiceWithDetails = InvoiceWithDetails(invoice: InvoiceRow, client: Option<ClientRow>, items: seq<ItemRow>)

  datatype PaginatedInvoices = PaginatedInvoices(data: seq<InvoiceWithDetails>, metadata: Metadata)

  /** `params.page || 1`. */
  function PageNumber(page: Option<int>): int {
    if page.Some? && page.value != 0 then page.value else 1
  }

  /** `params.pageSize || 10`; never zero. */
  function PageSize(pageSize: Option<int>): (n: int)
    ensures n != 0
  {
    if pageSize.Some? && pageSize.value != 0 then pageSize.value else 10
  }

  /** The status condition: none for an absent, empty or "all" status; the error the enum
      raises for any other text that is not a status label. */
  function StatusCondition(status: Option<string>): (r: Outcome<Option<InvoiceStatus>>)
    ensures r.Raised? <==> status.Some? && status.value != "" && status.value != "all"
                           && StatusFromLabel(status.value).None?
    ensures r.Ok? && r.value.Some? ==> status == Some(StatusLabel(r.value.value))
  {
    if status.None? || status.value == "" || status.value == "all" then Ok(None)
    else match StatusFromLabel(status.value)
      case Some(st) => Ok(Some(st))
      case None => Raised(DatabaseError)
  }

  /** The client row with that id, if there is one. */
  function ClientById(clients: seq<ClientRow>, id: nat): (r: Option<ClientRow>)
    ensures r.Some? ==> r.value in clients && r.value.id == id
    ensures r.None? <==> id !in ClientIds(clients)
  {
    if clients == [] then None
    else
      assert ClientIds(clients) == {clients[0].id} + ClientIds(clients[1..]) by {
        assert clients == [clients[0]] + clients[1..];
      }
      if clients[0].id == id then Some(clients[0]) else ClientById(clients[1..], id)
  }

  /** `LEFT JOIN clients ON invoices.client_id = clients.id`. */
  function Joined(t: seq<InvoiceRow>, clients: seq<ClientRow>): (r: seq<Listed>)
    ensures |r| == |t|
    ensures forall i :: 0 <= i < |t| ==> r[i].invoice == t[i]
    ensures forall i :: 0 <= i < |t| ==>
      (r[i].client == if t[i].clientId.None? then None else ClientById(clients, t[i].clientId.value))
  {
    seq(|t|, i requires 0 <= i < |t| =>
      Listed(t[i], if t[i].clientId.None? then None else ClientById(clients, t[i].clientId.value)))
  }

  /** `col ILIKE '%q%'` on a nullable column: null never matches. */
  predicate ILike(col: Option<string>, q: string) {
    col.Some? && ContainsIgnoringCase(col.value, q)
  }

  /** The search condition: an absent or empty query keeps every row; otherwise the
      number, the client's name or the client's company contains it, ignoring case. */
  predicate MatchesSearch(l: Listed, query: Option<string>) {
    query.None? || query.value == ""
    || ContainsIgnoringCase(l.invoice.invoiceNumber, query.value)
    || (l.client.Some? && (ContainsIgnoringCase(l.client.value.name, query.value)
                           || ILike(l.client.value.company, query.value)))
  }

  /** The `WHERE` clause: the user's invoice, with the status asked for, matching the search. */
  predicate Matches(l: Listed, userId: nat, status: Option<InvoiceStatus>, query: Option<string>) {
    l.invoice.userId == userId && (status.None? || l.invoice.status == status.value)
    && MatchesSearch(l, query)
  }

  /** Every joined row the `WHERE` clause keeps, in table order. */
  function Matching(s: Tables, userId: nat, status: Option<InvoiceStatus>, query: Option<string>): (r: seq<Listed>)
    ensures forall i :: 0 <= i < |r| ==> Matches(r[i], userId, status, query) && r[i].invoice in s.invoices
    ensures forall i :: 0 <= i < |s.invoices| ==>
      (Matches(Joined(s.invoices, s.clients)[i], userId, status, query) ==> Joined(s.invoices, s.clients)[i] in r)
  {
    var j := Joined(s.invoices, s.clients);
    var r := Filter(j, (l: Listed) => Matches(l, userId, status, query));
    assert forall i :: 0 <= i < |r| ==> r[i].invoice in s.invoices by {
      forall i | 0 <= i < |r| ensures r[i].invoice in s.invoices {
        var k :| 0 <= k < |j| && j[k] == r[i];
      }
    }
    r
  }

  // ---------------------------------------------------------------------------------
  // Order

  datatype SortOrder = DateAsc | DateDesc | AmountAsc | AmountDesc

  /** The `sort` parameter; anything else, or nothing, sorts by date, newest first. */
  function SortOrderOf(sort: Option<string>): SortOrder {
    if sort == Some("date-asc") then DateAsc
    else if sort == Some("amount-asc") then AmountAsc
    else if sort == Some("amount-desc") then AmountDesc
    else DateDesc
  }

  /** The day of the issue date; every row the store writes has a valid one. */
  function IssueDay(r: InvoiceRow): int {
    match SqlDate(r.issueDate)
    case Some(d) => d
    case None => 0
  }

  /** Postgres orders `numeric` values with NaN above every number and equal to itself. */
  predicate NumericLe(a: Numeric, b: Numeric) {
    b.NaN? || (a.Hundredths? && a.hundredths <= b.hundredths)
  }

  /** a may come before b under the order. */
  predicate Before(order: SortOrder, a: Listed, b: Listed) {
    match order
    case DateAsc => IssueDay(a.invoice) <= IssueDay(b.invoice)
    case DateDesc => IssueDay(b.invoice) <= IssueDay(a.invoice)
    case AmountAsc => NumericLe(a.invoice.total, b.invoice.total)
    case AmountDesc => NumericLe(b.invoice.total, a.invoice.total)
  }

  lemma BeforeTotal(order: SortOrder, a: Listed, b: Listed)
    ensures Before(order, a, b) || Before(order, b, a)
  {
  }

  lemma BeforeTransitive(order: SortOrder, a: Listed, b: Listed, c: Listed)
    requires Before(order, a, b) && Before(order, b, c)
    ensures Before(order, a, c)
  {
  }

  /** The order as the function value the sort takes. */
  function OrderLe(order: SortOrder): (Listed, Listed) -> bool {
    (a: Listed, b: Listed) => Before(order, a, b)
  }

  /** Every order is total and transitive. */
  lemma OrderIsTotalPreorder(order: SortOrder)
    ensures Sorting.Total(OrderLe(order)) && Sorting.Transitive(OrderLe(order))
  {
    var le := OrderLe(order);
    forall a, b ensures le(a, b) || le(b, a) {
      BeforeTotal(order, a, b);
    }
    forall a, b, c | le(a, b) && le(b, c) ensures le(a, c) {
      BeforeTransitive(order, a, b, c);
    }
  }

  predicate SortedBy(s: seq<Listed>, order: SortOrder) {
    Sorting.SortedBy(s, OrderLe(order))
  }

  /** `ORDER BY`: the rows sorted by insertion; rows that tie keep their table order. */
  function SortRows(s: seq<Listed>, order: SortOrder): seq<Listed> {
    Sorting.InsertionSort(s, OrderLe(order))
  }

  /** The sort puts the rows in order and keeps every row. */
  lemma SortRowsIsSorted(s: seq<Listed>, order: SortOrder)
    ensures SortedBy(SortRows(s, order), order)
    ensures multiset(SortRows(s, order)) == multiset(s)
  {
    OrderIsTotalPreorder(order);
    Sorting.InsertionSortIsSorted(s, OrderLe(order));
  }

  // ---------------------------------------------------------------------------------
  // Paging

  /** `LIMIT limit OFFSET offset` on rows already in order. */
  function PageSlice(s: seq<Listed>, offset: nat, limit: nat): (r: seq<Listed>)
    ensures |r| == (if offset >= |s| then 0 else if |s| - offset < limit then |s| - offset else limit)
    ensures forall i :: 0 <= i < |r| ==> offset + i < |s| && r[i] == s[offset + i]
  {
    if offset >= |s| then [] else s[offset .. if offset + limit < |s| then offset + limit else |s|]
  }

  /** `Math.ceil(n / d)` for a positive d: the fewest pages of d rows that hold n rows. */
  function CeilDiv(n: nat, d: int): nat
    requires d > 0
  {
    (n + d - 1) / d
  }

  /** The page count is the smallest number of pages whose rows reach n. */
  lemma CeilDivBounds(n: nat, d: int)
    requires d > 0
    ensures (CeilDiv(n, d) - 1) * d < n <= CeilDiv(n, d) * d || (n == 0 && CeilDiv(n, d) == 0)
  {
  }

  /** Every matching row in the order asked for. */
  function SortedMatches(s: Tables, userId: nat, status: Option<InvoiceStatus>, params: FilterParams): seq<Listed> {
    SortRows(Matching(s, userId, status, params.query), SortOrderOf(params.sort))
  }

  /** `(page - 1) * pageSize`: the rows before the page. */
  function RowsBefore(page: int, pageSize: int): int {
    (page - 1) * pageSize
  }

  /** The rows of the requested page and its metadata, or the error the query raises:
      for a status that is not a label, and for a negative `LIMIT` or `OFFSET`. */

  function ListPage(s: Tables, userId: nat, params: FilterParams): (r: Outcome<(seq<Listed>, Metadata)>)
    ensures r.Raised? <==> StatusCondition(params.status).Raised?
                           || PageSize(params.pageSize) < 0 || PageNumber(params.page) < 1
    ensures r.Ok? ==> |r.value.0| <= PageSize(params.pageSize)
                      && r.value.1.page == PageNumber(params.page)
                      && r.value.1.pageSize == PageSize(params.pageSize)
  {
    var page := PageNumber(params.page);
    var pageSize := PageSize(params.pageSize);
    var offset := RowsBefore(page, pageSize);
    match StatusCondition(params.status)
    case Raised(e) => Raised(e)
    case Ok(status) =>
      if pageSize < 0 then Raised(DatabaseError)
      else if offset < 0 then
        assert page < 1 by {
          if page >= 1 { MulMonotonic(0, page - 1, pageSize); }
        }
        Raised(DatabaseError)
      else
        assert page >= 1;
        var rows := Matching(s, userId, status, params.query);
        Ok((PageSlice(SortedMatches(s, userId, status, params), offset, pageSize),
            Metadata(|rows|, page, pageSize, CeilDiv(|rows|, pageSize))))
  }

  /** Every listed invoice is the user's, has the status asked for and matches the
      search: the listing never shows another tenant's invoice. */
  lemma PageRowsMatch(s: Tables, userId: nat, params: FilterParams, i: nat)
    requires ListPage(s, userId, params).Ok?
    requires i < |ListPage(s, userId, params).value.0|
    ensures var l := ListPage(s, userId, params).value.0[i];
      l.invoice.userId == userId && l.invoice in s.invoices
      && Matches(l, userId, StatusCondition(params.status).value, params.query)
      && (params.status.Some? && params.status.value != "" && params.status.value != "all"
          ==> params.status.value == StatusLabel(l.invoice.status))
  {
    var j := PageElement(s, userId, params, i);
    SortedRowMatches(s, userId, StatusCondition(params.status).value, params, j);
  }

  /** Row i of a page is one of the ordered matches. */
  lemma PageElement(s: Tables, userId: nat, params: FilterParams, i: nat) returns (j: nat)
    requires ListPage(s, userId, params).Ok?
    requires i < |ListPage(s, userId, params).value.0|
    ensures j < |SortedMatches(s, userId, StatusCondition(params.status).value, params)|
    ensures ListPage(s, userId, params).value.0[i]
      == SortedMatches(s, userId, StatusCondition(params.status).value, params)[j]
  {
    PageRows(s, userId, params);
    j := SliceElement(ListPage(s, userId, params).value.0,
                      SortedMatches(s, userId, StatusCondition(params.status).value, params),
                      RowsBefore(PageNumber(params.page), PageSize(params.pageSize)),
                      PageSize(params.pageSize), i);
  }

  lemma SliceElement(page: seq<Listed>, sorted: seq<Listed>, offset: nat, limit: nat, i: nat)
    returns (j: nat)
    requires page == PageSlice(sorted, offset, limit) && i < |page|
    ensures j < |sorted| && page[i] == sorted[j]
  {
    j := offset + i;
  }

  /** Ordering keeps only rows the `WHERE` clause accepted. */
  lemma SortedRowMatches(s: Tables, userId: nat, status: Option<InvoiceStatus>, params: FilterParams, j: nat)
    requires j < |SortedMatches(s, userId, status, params)|
    ensures var l := SortedMatches(s, userId, status, params)[j];
      Matches(l, userId, status, params.query) && l.invoice in s.invoices
  {
    var rows := Matching(s, userId, status, params.query);
    var l := SortedMatches(s, userId, status, params)[j];
    assert l in multiset(SortedMatches(s, userId, status, params));
    assert l in multiset(rows);
    var k :| 0 <= k < |rows| && rows[k] == l;
  }

  /** The page is in the order asked for. */
  lemma PageIsSorted(s: Tables, userId: nat, params: FilterParams)
    requires ListPage(s, userId, params).Ok?
    ensures SortedBy(ListPage(s, userId, params).value.0, SortOrderOf(params.sort))
  {
    var status := StatusCondition(params.status).value;
    var sorted := SortedMatches(s, userId, status, params);
    var offset := RowsBefore(PageNumber(params.page), PageSize(params.pageSize));
    assert offset >= 0;
    assert ListPage(s, userId, params).value.0 == PageSlice(sorted, offset, PageSize(params.pageSize));
    SortRowsIsSorted(Matching(s, userId, status, params.query), SortOrderOf(params.sort));
    SliceKeepsOrder(sorted, offset, PageSize(params.pageSize), SortOrderOf(params.sort));
  }

  /** A slice of an ordered list is ordered. */
  lemma SliceKeepsOrder(s: seq<Listed>, offset: nat, limit: nat, order: SortOrder)
    requires SortedBy(s, order)
    ensures SortedBy(PageSlice(s, offset, limit), order)
  {
    if offset < |s| {
      Sorting.SliceSorted(s, offset, if offset + limit < |s| then offset + limit else |s|, OrderLe(order));
    }
  }

  /** `total` counts every matching invoice, not just the page's, and a page holds rows
      exactly when its number is at most `totalPages`. */
  lemma PageWithinTotalPages(s: Tables, userId: nat, params: FilterParams)
    requires ListPage(s, userId, params).Ok?
    ensures var (rows, meta) := ListPage(s, userId, params).value;
      meta.total == |Matching(s, userId, StatusCondition(params.status).value, params.query)|
      && (|rows| > 0 <==> meta.page <= meta.totalPages)
  {
    var r := ListPage(s, userId, params);
    var (rows, meta) := r.value;
    var status := StatusCondition(params.status).value;
    var sorted := SortedMatches(s, userId, status, params);
    var n := |Matching(s, userId, status, params.query)|;
    var p := PageNumber(params.page);
    var d := PageSize(params.pageSize);
    assert meta == Metadata(n, p, d, CeilDiv(n, d));
    PageRows(s, userId, params);
    assert |sorted| == n;
    assert rows == PageSlice(sorted, RowsBefore(p, d), d);
    PageStartWithinTotal(n, p, d);
  }

  /** Page p starts before row n exactly when p is at most the page count. */
  lemma PageStartWithinTotal(n: nat, p: int, d: int)
    requires p >= 1 && d > 0
    ensures RowsBefore(p, d) < n <==> p <= CeilDiv(n, d)
  {
    var t := CeilDiv(n, d);
    CeilDivBounds(n, d);
    if p <= t {
      MulMonotonic(p - 1, t - 1, d);
    } else {
      MulMonotonic(t, p - 1, d);
    }
  }

  /** Paging loses nothing: the k-th matching invoice in order is at index k % pageSize
      of page k / pageSize + 1. */
  lemma EveryMatchIsOnAPage(s: Tables, userId: nat, params: FilterParams, k: nat)
    requires StatusCondition(params.status).Ok? && PageSize(params.pageSize) > 0
    requires k < |Matching(s, userId, StatusCondition(params.status).value, params.query)|
    ensures var d := PageSize(params.pageSize);
      var r := ListPage(s, userId, params.(page := Some(k / d + 1)));
      r.Ok? && k % d < |r.value.0|
      && r.value.0[k % d] == SortedMatches(s, userId, StatusCondition(params.status).value, params)[k]
  {
    var d := PageSize(params.pageSize);
    var p, m := PageOfRow(k, d);
    RowOnPage(s, userId, params, p, m);
  }

  /** Row m of page p is the ordered match at `RowsBefore(p, pageSize) + m`. */
  lemma RowOnPage(s: Tables, userId: nat, params: FilterParams, p: int, m: nat)
    requires StatusCondition(params.status).Ok? && PageSize(params.pageSize) > 0
    requires p >= 1 && m < PageSize(params.pageSize)
    requires RowsBefore(p, PageSize(params.pageSize)) + m
             < |Matching(s, userId, StatusCondition(params.status).value, params.query)|
    ensures var r := ListPage(s, userId, params.(page := Some(p)));
      r.Ok? && m < |r.value.0|
      && r.value.0[m] == SortedMatches(s, userId, StatusCondition(params.status).value, params)
                           [RowsBefore(p, PageSize(params.pageSize)) + m]
  {
    var d := PageSize(params.pageSize);
    var q := params.(page := Some(p));
    var sorted := SortedMatches(s, userId, StatusCondition(params.status).value, params);
    assert PageNumber(q.page) == p && PageSize(q.pageSize) == d;
    assert SortedMatches(s, userId, StatusCondition(q.status).value, q) == sorted;
    var offset := RowsBefore(p, d);
    RowsBeforeFirstPage(p, d);
    var r := ListPage(s, userId, q);
    assert r.Ok?;
    PageRows(s, userId, q);
    assert r.value.0 == PageSlice(sorted, offset, d);
    SliceHolds(sorted, offset, d, m);
  }

  lemma RowsBeforeFirstPage(page: int, pageSize: int)
    requires page >= 1 && pageSize > 0
    ensures RowsBefore(page, pageSize) >= 0
  {
    MulMonotonic(0, page - 1, pageSize);
  }

  /** The rows of a page are the slice of the ordered matches that starts at the page's
      offset. */
  lemma PageRows(s: Tables, userId: nat, params: FilterParams)
    requires ListPage(s, userId, params).Ok?
    ensures RowsBefore(PageNumber(params.page), PageSize(params.pageSize)) >= 0
    ensures ListPage(s, userId, params).value.0
      == PageSlice(SortedMatches(s, userId, StatusCondition(params.status).value, params),
                   RowsBefore(PageNumber(params.page), PageSize(params.pageSize)), PageSize(params.pageSize))
  {
  }

  lemma SliceHolds(s: seq<Listed>, offset: nat, limit: nat, m: nat)
    requires offset + m < |s| && m < limit
    ensures m < |PageSlice(s, offset, limit)| && PageSlice(s, offset, limit)[m] == s[offset + m]
  {
  }

  /** Row k lies k % d rows into page k / d + 1. */
  lemma PageOfRow(k: nat, d: int) returns (p: int, m: nat)
    requires d > 0
    ensures p == k / d + 1 && m == k % d
    ensures p >= 1 && m < d && RowsBefore(p, d) + m == k
  {
    p, m := k / d + 1, k % d;
  }

  // ---------------------------------------------------------------------------------
  // Items

  /** `itemsByInvoice[id] || []`. */
  function Lookup(m: map<nat, seq<ItemRow>>, id: nat): seq<ItemRow> {
    if id in m then m[id] else []
  }

  /** The grouping loop of `getInvoices`: each listed invoice's rows of the item table,
      in table order. */
  method GroupItems(items: seq<ItemRow>, ids: set<nat>) returns (byInvoice: map<nat, seq<ItemRow>>)
    ensures forall id :: id in ids ==> Lookup(byInvoice, id) == ItemsOf(items, id)
  {
    byInvoice := map[];
    var k := 0;
    while k < |items|
      invariant 0 <= k <= |items|
      invariant forall id :: id in ids ==> Lookup(byInvoice, id) == ItemsOf(items[..k], id)
    {
      var it := items[k];
      assert items[..k + 1] == items[..k] + [it];
      forall id | id in ids
        ensures ItemsOf(items[..k + 1], id) == ItemsOf(items[..k], id) + (if it.invoiceId == id then [it] else [])
      {
        ItemsOfSnoc(items[..k], it, id);
      }
      byInvoice := AddToGroup(byInvoice, it, ids);
      k := k + 1;
    }
    assert items[..|items|] == items;
  }

  /** One turn of the grouping loop: an item of a listed invoice is pushed onto that
      invoice's list, which is created first when missing; no other list changes. */
  method AddToGroup(byInvoice: map<nat, seq<ItemRow>>, it: ItemRow, ids: set<nat>)
    returns (next: map<nat, seq<ItemRow>>)
    ensures forall id :: id in ids ==>
      Lookup(next, id) == Lookup(byInvoice, id) + (if it.invoiceId == id then [it] else [])
  {
    next := byInvoice;
    if it.invoiceId in ids {
      if it.invoiceId !in next {
        next := next[it.invoiceId := []];
      }
      next := next[it.invoiceId := next[it.invoiceId] + [it]];
    }
  }

  /** `getInvoices`: the page with each invoice's client and items. The items of every
      listed invoice are exactly its rows of the item table, in table order. */
  method GetInvoices(db: Database, userId: nat, params: FilterParams) returns (r: Outcome<PaginatedInvoices>)
    ensures var page := ListPage(db.State(), userId, params);
      (r.Raised? <==> page.Raised?)
      && (r.Ok? ==> r.value.metadata == page.value.1 && |r.value.data| == |page.value.0|
                    && forall i :: 0 <= i < |r.value.data| ==>
                         r.value.data[i] == InvoiceWithDetails(page.value.0[i].invoice, page.value.0[i].client,
                                                               ItemsOf(db.items, page.value.0[i].invoice.id)))
  {
    var listed := ListPage(db.State(), userId, params);
    if listed.Raised? {
      return Raised(listed.error);
    }
    var (rows, meta) := listed.value;
    var ids := set i | 0 <= i < |rows| :: rows[i].invoice.id;
    var byInvoice: map<nat, seq<ItemRow>> := map[];
    if |rows| > 0 {
      byInvoice := GroupItems(db.items, ids);
    }
    var data := seq(|rows|, i requires 0 <= i < |rows| =>
      InvoiceWithDetails(rows[i].invoice, rows[i].client, Lookup(byInvoice, rows[i].invoice.id)));
    r := Ok(PaginatedInvoices(data, meta));
  }
}
