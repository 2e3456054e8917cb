/** The client queries: `getClients`, the user's clients ordered by name, and
    `createClient`, which inserts one client row. */
module ClientQueries {
  import opened Wrappers
  import opened Text
  import opened Seqs
  import opened ClientsSchema
  import opened Db
  import Sorting

  /** The columns both queries return. */
  datatype Client = Client(
    id: nat,
    name: string,
    email: Option<string>,
    phone: Option<string>,
    company: Option<string>,
    address: Option<string>)

  function Summary(r: ClientRow): Client {
    Client(r.id, r.name, r.email, r.phone, r.company, r.address)
  }

  function Summaries(t: seq<ClientRow>): (r: seq<Client>)
    ensures |r| == |t|
    ensures forall i :: 0 <= i < |t| ==> r[i] == Summary(t[i])
  {
    seq(|t|, i requires 0 <= i < |t| => Summary(t[i]))
  }

  /** `WHERE user_id = userId`, in table order. */
  function OwnedBy(t: seq<ClientRow>, userId: nat): seq<ClientRow> {
    Filter(t, (c: ClientRow) => c.userId == userId)
  }

  // ---------------------------------------------------------------------------------
  // getClients

  /** Clients compared by name. */
  function ByName(a: Client, b: Client): bool {
    LexLe(a.name, b.name)
  }

  predicate SortedByName(s: seq<Client>) {
    Sorting.SortedBy(s, ByName)
  }

  /** `ORDER BY name`, by insertion; clients with the same name keep their table order. */
  function SortByName(s: seq<Client>): seq<Client> {
    Sorting.InsertionSort(s, ByName)
  }

  /** `getClients`: the user's clients, ordered by name. */
  function GetClients(s: Tables, userId: nat): (r: seq<Client>)
    ensures multiset(r) == multiset(Summaries(OwnedBy(s.clients, userId)))
  {
    SortByName(Summaries(OwnedBy(s.clients, userId)))
  }

  /** Names are compared totally and transitively, so the sort orders the clients. */
  lemma SortByNameIsSorted(s: seq<Client>)
    ensures SortedByName(SortByName(s))
    ensures multiset(SortByName(s)) == multiset(s)
  {
    forall a, b ensures ByName(a, b) || ByName(b, a) {
      LexLeTotal(a.name, b.name);
    }
    forall a, b, c | ByName(a, b) && ByName(b, c) ensures ByName(a, c) {
      LexLeTransitive(a.name, b.name, c.name);
    }
    Sorting.InsertionSortIsSorted(s, ByName);
  }

  /** The list is ordered by name, and holds exactly the clients of the user: each row
      of the user appears, and nothing else does. */
  lemma GetClientsIsTheUsersByName(s: Tables, userId: nat)
    ensures SortedByName(GetClients(s, userId))
    ensures |GetClients(s, userId)| == |OwnedBy(s.clients, userId)|
    ensures forall c :: c in GetClients(s, userId) <==>
      exists k :: 0 <= k < |s.clients| && s.clients[k].userId == userId && Summary(s.clients[k]) == c
  {
    var sums := Summaries(OwnedBy(s.clients, userId));
    var r := GetClients(s, userId);
    SortByNameIsSorted(sums);
    assert |r| == |multiset(r)| == |multiset(sums)| == |sums|;
    forall c ensures c in r <==>
      exists k :: 0 <= k < |s.clients| && s.clients[k].userId == userId && Summary(s.clients[k]) == c
    {
      assert c in r <==> c in multiset(r);
      assert c in sums <==> c in multiset(sums);
      SummaryOfOwned(s.clients, userId, c);
    }
  }

  /** A summary of the user's rows is the summary of some row of the user, and back. */
  lemma SummaryOfOwned(t: seq<ClientRow>, userId: nat, c: Client)
    ensures c in Summaries(OwnedBy(t, userId)) <==>
      exists k :: 0 <= k < |t| && t[k].userId == userId && Summary(t[k]) == c
  {
    var owned := OwnedBy(t, userId);
    var sums := Summaries(owned);
    if c in sums {
      var i :| 0 <= i < |sums| && sums[i] == c;
      assert owned[i] in t;
      var k :| 0 <= k < |t| && t[k] == owned[i];
    }
    if k :| 0 <= k < |t| && t[k].userId == userId && Summary(t[k]) == c {
      assert t[k] in owned;
      var i :| 0 <= i < |owned| && owned[i] == t[k];
      assert sums[i] == c;
    }
  }

  // ---------------------------------------------------------------------------------
  // createClient

  /** `CreateClientData`: a name and the optional contact fields. */
  datatype ClientData = ClientData(
    name: string,
    email: Option<string>,
    phone: Option<string>,
    company: Option<string>,
    address: Option<string>)

  /** The inserted row: the user's, active, with every absent or empty contact field
      stored as null and no notes. */
  function NewClient(id: nat, userId: nat, data: ClientData, now: int): ClientRow {
    ClientRow(id, userId, data.name, NullIfEmpty(data.email), NullIfEmpty(data.phone),
              NullIfEmpty(data.company), NullIfEmpty(data.address), None,
              DefaultClientStatus, now, now)
  }

  /** The tables after the insert, or the error it raises: the client's user must have a
      profile. */
  function InsertClient(s: Tables, userId: nat, data: ClientData, now: int): (r: Outcome<Tables>)
    ensures r.Raised? <==> userId !in ProfileIds(s.profiles)
    ensures r.Ok? ==> r.value == s.(clients := s.clients + [NewClient(s.nextId, userId, data, now)],
                                    nextId := s.nextId + 1)
  {
    if userId in ProfileIds(s.profiles)
    then Ok(s.(clients := s.clients + [NewClient(s.nextId, userId, data, now)], nextId := s.nextId + 1))
    else Raised(DatabaseError)
  }

  /** A contact field is stored as null exactly when it was absent or empty. */
  lemma StoredContactFields(id: nat, userId: nat, data: ClientData, now: int)
    ensures var r := NewClient(id, userId, data, now);
      (r.email.None? <==> data.email.None? || data.email.value == "")
      && (r.phone.None? <==> data.phone.None? || data.phone.value == "")
      && (r.company.None? <==> data.company.None? || data.company.value == "")
      && (r.address.None? <==> data.address.None? || data.address.value == "")
      && (r.email.Some? ==> r.email == data.email) && (r.phone.Some? ==> r.phone == data.phone)
      && (r.company.Some? ==> r.company == data.company) && (r.address.Some? ==> r.address == data.address)
      && r.name == data.name && r.userId == userId && r.status == Active
  {
  }

  /** An insert keeps every key unique and every reference valid. */
  lemma InsertClientKeepsValid(s: Tables, userId: nat, data: ClientData, now: int)
    requires ValidTables(s)
    requires InsertClient(s, userId, data, now).Ok?
    ensures ValidTables(InsertClient(s, userId, data, now).value)
  {
    var row := NewClient(s.nextId, userId, data, now);
    var n := s.nextId + 1;
    var t := s.clients + [row];
    AppendFreshKeys(s.clients, [row], ClientKey, s.nextId, s.nextId);
    assert ProfileKeysHold(s.profiles, n) && InvoiceKeysHold(s.invoices, n);
    assert ItemKeysHold(s.items, n) && SubscriptionKeysHold(s.subscriptions, n);
    forall v | v in s.invoices && v.clientId.Some?
      ensures v.clientId.value in ClientIds(t)
    {
      var c :| c in s.clients && c.id == v.clientId.value;
      assert c in t;
    }
  }

  /** After an insert the user's list holds one more client, the new one. */
  lemma CreatedClientIsListed(s: Tables, userId: nat, data: ClientData, now: int)
    requires InsertClient(s, userId, data, now).Ok?
    ensures multiset(GetClients(InsertClient(s, userId, data, now).value, userId))
      == multiset(GetClients(s, userId)) + multiset{Summary(NewClient(s.nextId, userId, data, now))}
  {
    var row := NewClient(s.nextId, userId, data, now);
    var t := InsertClient(s, userId, data, now).value.clients;
    assert t == s.clients + [row];
    OwnedAfterInsert(s.clients, row, userId);
    var owned := OwnedBy(s.clients, userId);
    assert OwnedBy(t, userId) == owned + [row];
    assert Summaries(owned + [row]) == Summaries(owned) + [Summary(row)];
  }

  /** Every other user's list is as it was. */
  lemma OthersListsUnchanged(s: Tables, userId: nat, data: ClientData, now: int, other: nat)
    requires InsertClient(s, userId, data, now).Ok?
    requires other != userId
    ensures GetClients(InsertClient(s, userId, data, now).value, other) == GetClients(s, other)
  {
    var row := NewClient(s.nextId, userId, data, now);
    var t := InsertClient(s, userId, data, now).value.clients;
    assert t == s.clients + [row];
    assert row.userId != other;
    OwnedAfterInsert(s.clients, row, other);
    assert OwnedBy(t, other) == OwnedBy(s.clients, other);
  }

  lemma OwnedAfterInsert(t: seq<ClientRow>, row: ClientRow, userId: nat)
    ensures OwnedBy(t + [row], userId) == OwnedBy(t, userId) + (if row.userId == userId then [row] else [])
  {
    FilterSnoc(t, row, (c: ClientRow) => c.userId == userId);
  }

  /** `createClient`: the new client, or the error the insert raised. */
  method CreateClient(db: Database, userId: nat, data: ClientData, now: int) returns (r: Outcome<Client>)
    requires db.Valid()
    modifies db
    ensures db.Valid()
    ensures var next := InsertClient(old(db.State()), userId, data, now);
      (r.Ok? <==> next.Ok?)
      && (r.Ok? ==> r.value == Summary(NewClient(old(db.nextId), userId, data, now))
                    && db.State() == next.value)
      && (r.Raised? ==> r.error == DatabaseError && db.State() == old(db.State()))
  {
    var next := InsertClient(db.State(), userId, data, now);
    if next.Raised? {
      return Raised(next.error);
    }
    InsertClientKeepsValid(db.State(), userId, data, now);
    r := Ok(Summary(NewClient(db.nextId, userId, data, now)));
    db.clients, db.nextId := next.value.clients, next.value.nextId;
  }
}
