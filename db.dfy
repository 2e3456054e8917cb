/** The application's Postgres database: five tables, the keys and unique columns the
    schema declares, and its foreign keys with their delete rules. uuid keys are
    modelled as natural numbers drawn from one counter, so a new row's id is fresh. */
module Db {
  import opened Wrappers
  import opened Seqs
  import opened ClientsSchema
  import opened InvoicesSchema
  import opened InvoiceItemsSchema
  import opened SubscriptionsSchema

  /** What a statement that Postgres rejects raises; the server's own wording is not
      modelled. */
  const DatabaseError: string := "database error"

  /** A `profiles` row, one per signed-up user, with the template the user picked. */
  datatype ProfileRow = ProfileRow(
    id: nat,
    email: string,
    fullName: Option<string>,
    companyName: Option<string>,
    phone: Option<string>,
    address: Option<string>,
    logoUrl: Option<string>,
    invoiceTemplate: Option<string>,
    createdAt: int,
    updatedAt: int)

  function ProfileKey(r: ProfileRow): nat { r.id }
  function ClientKey(r: ClientRow): nat { r.id }
  function InvoiceKey(r: InvoiceRow): nat { r.id }
  function InvoiceNumberKey(r: InvoiceRow): string { r.invoiceNumber }
  function ItemKey(r: ItemRow): nat { r.id }
  function SubscriptionKey(r: SubscriptionRow): nat { r.id }
  function SubscriptionUserKey(r: SubscriptionRow): nat { r.userId }
  function CustomerKey(r: SubscriptionRow): string { r.stripeCustomerId }
  function StripeSubscriptionKey(r: SubscriptionRow): Option<string> { r.stripeSubscriptionId }

  function ProfileIds(t: seq<ProfileRow>): set<nat> { set r | r in t :: r.id }
  function ClientIds(t: seq<ClientRow>): set<nat> { set r | r in t :: r.id }
  function InvoiceIds(t: seq<InvoiceRow>): set<nat> { set r | r in t :: r.id }

  /** Every id of a table lies below the counter. */
  predicate IdsBelow(ids: seq<nat>, nextId: nat) {
    forall i :: 0 <= i < |ids| ==> ids[i] < nextId
  }

  predicate ProfileKeysHold(t: seq<ProfileRow>, nextId: nat) {
    DistinctBy(t, ProfileKey) && IdsBelow(Keys(t, ProfileKey), nextId)
  }

  predicate ClientKeysHold(t: seq<ClientRow>, nextId: nat) {
    DistinctBy(t, ClientKey) && IdsBelow(Keys(t, ClientKey), nextId)
  }

  /** Invoice ids and invoice numbers are unique over the whole table. */
  predicate InvoiceKeysHold(t: seq<InvoiceRow>, nextId: nat) {
    DistinctBy(t, InvoiceKey) && IdsBelow(Keys(t, InvoiceKey), nextId) && DistinctBy(t, InvoiceNumberKey)
  }

  predicate ItemKeysHold(t: seq<ItemRow>, nextId: nat) {
    DistinctBy(t, ItemKey) && IdsBelow(Keys(t, ItemKey), nextId)
  }

  /** One subscription per user, per Stripe customer and per Stripe subscription. */
  predicate SubscriptionKeysHold(t: seq<SubscriptionRow>, nextId: nat) {
    DistinctBy(t, SubscriptionKey) && IdsBelow(Keys(t, SubscriptionKey), nextId)
    && DistinctBy(t, SubscriptionUserKey) && DistinctBy(t, CustomerKey)
    && DistinctPresentBy(t, StripeSubscriptionKey)
  }

  /** Primary keys and unique columns of every table. */
  predicate KeysHold(profiles: seq<ProfileRow>, clients: seq<ClientRow>, invoices: seq<InvoiceRow>,
                     items: seq<ItemRow>, subscriptions: seq<SubscriptionRow>, nextId: nat) {
    ProfileKeysHold(profiles, nextId) && ClientKeysHold(clients, nextId)
    && InvoiceKeysHold(invoices, nextId) && ItemKeysHold(items, nextId)
    && SubscriptionKeysHold(subscriptions, nextId)
  }

  /** The ids of a user's clients. */
  function ClientsOf(t: seq<ClientRow>, userId: nat): set<nat> {
    set c | c in t && c.userId == userId :: c.id
  }

  /** The ids of a user's invoices. */
  function InvoicesOf(t: seq<InvoiceRow>, userId: nat): set<nat> {
    set v | v in t && v.userId == userId :: v.id
  }

  /** Foreign keys: clients, invoices and subscriptions belong to a profile, an invoice's
      client (when set) exists, and every item belongs to an invoice. An invoice's
      client need not belong to the invoice's user: the schema does not say so. */
  predicate ReferencesHold(profiles: seq<ProfileRow>, clients: seq<ClientRow>, invoices: seq<InvoiceRow>,
                           items: seq<ItemRow>, subscriptions: seq<SubscriptionRow>) {
    (forall c :: c in clients ==> c.userId in ProfileIds(profiles))
    && (forall v :: v in invoices ==> v.userId in ProfileIds(profiles))
    && (forall v :: v in invoices && v.clientId.Some? ==> v.clientId.value in ClientIds(clients))
    && (forall it :: it in items ==> it.invoiceId in InvoiceIds(invoices))
    && (forall s :: s in subscriptions ==> s.userId in ProfileIds(profiles))
  }

  /** `ON DELETE SET NULL` on invoices.client_id: invoices that named a deleted client
      keep everything but the reference. */
  function DetachClients(t: seq<InvoiceRow>, gone: set<nat>): (r: seq<InvoiceRow>)
    ensures |r| == |t|
    ensures forall i :: 0 <= i < |t| ==>
      r[i] == (if t[i].clientId.Some? && t[i].clientId.value in gone
               then t[i].(clientId := None) else t[i])
  {
    seq(|t|, i requires 0 <= i < |t| =>
      if t[i].clientId.Some? && t[i].clientId.value in gone then t[i].(clientId := None) else t[i])
  }

  /** Rewriting non-key columns of every row keeps the keys unique. */
  lemma DetachClientsKeepsKeys(t: seq<InvoiceRow>, gone: set<nat>, nextId: nat)
    requires DistinctBy(t, InvoiceKey) && DistinctBy(t, InvoiceNumberKey)
    requires IdsBelow(Keys(t, InvoiceKey), nextId)
    ensures DistinctBy(DetachClients(t, gone), InvoiceKey)
    ensures DistinctBy(DetachClients(t, gone), InvoiceNumberKey)
    ensures IdsBelow(Keys(DetachClients(t, gone), InvoiceKey), nextId)
  {
    var r := DetachClients(t, gone);
    assert forall i :: 0 <= i < |t| ==> r[i].id == t[i].id && r[i].invoiceNumber == t[i].invoiceNumber;
  }

  /** Deleting rows keeps ids below the counter. */
  lemma FilterIdsBelow<T>(s: seq<T>, keep: T -> bool, key: T -> nat, nextId: nat)
    requires IdsBelow(Keys(s, key), nextId)
    ensures IdsBelow(Keys(Filter(s, keep), key), nextId)
  {
    var r := Filter(s, keep);
    forall i | 0 <= i < |r|
      ensures key(r[i]) < nextId
    {
      var k :| 0 <= k < |s| && s[k] == r[i];
      assert Keys(s, key)[k] == key(s[k]);
    }
  }

  /** The items of one invoice, in table order. */
  function ItemsOf(t: seq<ItemRow>, invoiceId: nat): seq<ItemRow> {
    Filter(t, (it: ItemRow) => it.invoiceId == invoiceId)
  }

  /** One more item row either joins that invoice's items at the end or leaves them. */
  lemma ItemsOfSnoc(t: seq<ItemRow>, x: ItemRow, invoiceId: nat)
    ensures ItemsOf(t + [x], invoiceId) == ItemsOf(t, invoiceId) + (if x.invoiceId == invoiceId then [x] else [])
  {
    FilterSnoc(t, x, (it: ItemRow) => it.invoiceId == invoiceId);
  }

  function ItemsNotOf(t: seq<ItemRow>, invoiceId: nat): seq<ItemRow> {
    Filter(t, (it: ItemRow) => it.invoiceId != invoiceId)
  }

  /** Rows whose ids count up from the counter keep the key unique and below the
      advanced counter. */
  lemma AppendFreshKeys<T>(a: seq<T>, b: seq<T>, key: T -> nat, nextId: nat, first: nat)
    requires DistinctBy(a, key) && IdsBelow(Keys(a, key), nextId) && nextId <= first
    requires forall i :: 0 <= i < |b| ==> key(b[i]) == first + i
    ensures DistinctBy(a + b, key) && IdsBelow(Keys(a + b, key), first + |b|)
  {
    var c := a + b;
    forall i, j | 0 <= i < j < |c|
      ensures key(c[i]) != key(c[j])
    {
      if j < |a| {
      } else if i < |a| {
        assert Keys(a, key)[i] == key(a[i]);
        assert c[j] == b[j - |a|];
      } else {
        assert c[i] == b[i - |a|] && c[j] == b[j - |a|];
      }
    }
    forall i | 0 <= i < |c|
      ensures key(c[i]) < first + |b|
    {
      if i < |a| {
        assert Keys(a, key)[i] == key(a[i]);
      } else {
        assert c[i] == b[i - |a|];
      }
    }
  }

  /** The whole database as a value: its five tables and the id counter. */
  datatype Tables = Tables(
    profiles: seq<ProfileRow>,
    clients: seq<ClientRow>,
    invoices: seq<InvoiceRow>,
    items: seq<ItemRow>,
    subscriptions: seq<SubscriptionRow>,
    nextId: nat)

  /** The schema's constraints hold. */
  predicate ValidTables(s: Tables) {
    KeysHold(s.profiles, s.clients, s.invoices, s.items, s.subscriptions, s.nextId)
    && ReferencesHold(s.profiles, s.clients, s.invoices, s.items, s.subscriptions)
  }

  class Database {
    var profiles: seq<ProfileRow>
    var clients: seq<ClientRow>
    var invoices: seq<InvoiceRow>
    var items: seq<ItemRow>
    var subscriptions: seq<SubscriptionRow>
    /** The next fresh id. */
    var nextId: nat

    /** The current contents. */
    function State(): Tables
      reads this
    {
      Tables(profiles, clients, invoices, items, subscriptions, nextId)
    }

    /** The schema's constraints hold. */
    predicate Valid()
      reads this
    {
      KeysHold(profiles, clients, invoices, items, subscriptions, nextId)
      && ReferencesHold(profiles, clients, invoices, items, subscriptions)
    }

    /** An empty database. */
    constructor ()
      ensures Valid()
      ensures profiles == [] && clients == [] && invoices == [] && items == []
      ensures subscriptions == [] && nextId == 0
    {
      profiles, clients, invoices, items, subscriptions, nextId := [], [], [], [], [], 0;
    }

    /** Deleting a client: its row goes and the invoices that named it keep no client. */
    method DeleteClient(clientId: nat)
      requires Valid()
      modifies this
      ensures Valid()
      ensures clients == Filter(old(clients), (c: ClientRow) => c.id != clientId)
      ensures invoices == DetachClients(old(invoices), {clientId})
      ensures profiles == old(profiles) && items == old(items)
      ensures subscriptions == old(subscriptions) && nextId == old(nextId)
    {
      var keep := (c: ClientRow) => c.id != clientId;
      FilterDistinctBy(clients, keep, ClientKey);
      FilterIdsBelow(clients, keep, ClientKey, nextId);
      DetachClientsKeepsKeys(invoices, {clientId}, nextId);
      DeleteClientKeepsReferences(profiles, clients, invoices, items, subscriptions, clientId);
      clients := Filter(clients, keep);
      invoices := DetachClients(invoices, {clientId});
    }

    /** Replaces every table and the counter at once. */
    method Store(t: Tables)
      requires ValidTables(t)
      modifies this
      ensures Valid() && State() == t
    {
      profiles, clients, invoices := t.profiles, t.clients, t.invoices;
      items, subscriptions, nextId := t.items, t.subscriptions, t.nextId;
    }

    /** Deleting a profile: its clients, invoices, their items and its subscription go
      too, and other users' invoices that named one of its clients keep no client. */
    method DeleteProfile(userId: nat)
      requires Valid()
      modifies this
      ensures Valid()
      ensures State() == WithoutProfile(old(State()), userId)
    {
      WithoutProfileKeepsValid(State(), userId);
      Store(WithoutProfile(State(), userId));
    }
  }

  /** Deleting a client and detaching the invoices that named it leaves no dangling
      reference. */
  lemma DeleteClientKeepsReferences(profiles: seq<ProfileRow>, clients: seq<ClientRow>,
                                    invoices: seq<InvoiceRow>, items: seq<ItemRow>,
                                    subscriptions: seq<SubscriptionRow>, clientId: nat)
    requires ReferencesHold(profiles, clients, invoices, items, subscriptions)
    ensures ReferencesHold(profiles, Filter(clients, (c: ClientRow) => c.id != clientId),
                           DetachClients(invoices, {clientId}), items, subscriptions)
  {
    var kept := Filter(clients, (c: ClientRow) => c.id != clientId);
    var detached := DetachClients(invoices, {clientId});
    forall v | v in detached && v.clientId.Some?
      ensures v.clientId.value in ClientIds(kept)
    {
      var i :| 0 <= i < |detached| && detached[i] == v;
      assert invoices[i] in invoices;
      var c :| c in clients && c.id == v.clientId.value;
      assert c in kept;
    }
    forall v | v in detached
      ensures v.userId in ProfileIds(profiles)
    {
      var i :| 0 <= i < |detached| && detached[i] == v;
      assert invoices[i] in invoices;
    }
    forall it | it in items
      ensures it.invoiceId in InvoiceIds(detached)
    {
      var w :| w in invoices && w.id == it.invoiceId;
      var i :| 0 <= i < |invoices| && invoices[i] == w;
      assert detached[i] in detached;
    }
  }

  // ---------------------------------------------------------------------------------
  // Deleting a profile

  /** The rows that survive the cascade, one test per table. */
  function OtherProfile(userId: nat): ProfileRow -> bool { (p: ProfileRow) => p.id != userId }
  function OtherUsersClient(userId: nat): ClientRow -> bool { (c: ClientRow) => c.userId != userId }
  function OtherUsersInvoice(userId: nat): InvoiceRow -> bool { (v: InvoiceRow) => v.userId != userId }
  function ItemOfKept(gone: set<nat>): ItemRow -> bool { (it: ItemRow) => it.invoiceId !in gone }
  function OtherUsersSubscription(userId: nat): SubscriptionRow -> bool {
    (x: SubscriptionRow) => x.userId != userId
  }

  /** `DELETE FROM profiles WHERE id = userId` with the delete rules of the foreign keys:
      the user's clients, invoices and subscription cascade, so do the items of the
      deleted invoices, and invoices that named a deleted client keep no client. */
  function WithoutProfile(s: Tables, userId: nat): Tables {
    s.(profiles := Filter(s.profiles, OtherProfile(userId)),
       clients := Filter(s.clients, OtherUsersClient(userId)),
       invoices := DetachClients(Filter(s.invoices, OtherUsersInvoice(userId)), ClientsOf(s.clients, userId)),
       items := Filter(s.items, ItemOfKept(InvoicesOf(s.invoices, userId))),
       subscriptions := Filter(s.subscriptions, OtherUsersSubscription(userId)))
  }

  /** Nothing of the user remains: no profile, client, invoice or subscription of theirs,
      no item of one of their invoices, and no invoice naming one of their clients. */
  lemma WithoutProfileRemovesTheUser(s: Tables, userId: nat)
    ensures var r := WithoutProfile(s, userId);
      userId !in ProfileIds(r.profiles)
      && (forall c :: c in r.clients ==> c.userId != userId)
      && (forall v :: v in r.invoices ==>
            v.userId != userId && (v.clientId.Some? ==> v.clientId.value !in ClientsOf(s.clients, userId)))
      && (forall it :: it in r.items ==> it.invoiceId !in InvoicesOf(s.invoices, userId))
      && (forall x :: x in r.subscriptions ==> x.userId != userId)
      && r.nextId == s.nextId
  {
    var r := WithoutProfile(s, userId);
    RemainingInvoicesAreOthers(s, userId);
    forall p | p in r.profiles ensures p.id != userId {
      var i :| 0 <= i < |r.profiles| && r.profiles[i] == p;
      assert OtherProfile(userId)(r.profiles[i]);
    }
    forall c | c in r.clients ensures c.userId != userId {
      var i :| 0 <= i < |r.clients| && r.clients[i] == c;
      assert OtherUsersClient(userId)(r.clients[i]);
    }
    forall it | it in r.items ensures it.invoiceId !in InvoicesOf(s.invoices, userId) {
      var i :| 0 <= i < |r.items| && r.items[i] == it;
      assert ItemOfKept(InvoicesOf(s.invoices, userId))(r.items[i]);
    }
    forall x | x in r.subscriptions ensures x.userId != userId {
      var i :| 0 <= i < |r.subscriptions| && r.subscriptions[i] == x;
      assert OtherUsersSubscription(userId)(r.subscriptions[i]);
    }
  }

  /** No remaining invoice is the user's or names one of the user's clients. */
  lemma RemainingInvoicesAreOthers(s: Tables, userId: nat)
    ensures forall v :: v in WithoutProfile(s, userId).invoices ==>
      v.userId != userId && (v.clientId.Some? ==> v.clientId.value !in ClientsOf(s.clients, userId))
  {
    var r := WithoutProfile(s, userId);
    var kept := Filter(s.invoices, OtherUsersInvoice(userId));
    forall v | v in r.invoices
      ensures v.userId != userId && (v.clientId.Some? ==> v.clientId.value !in ClientsOf(s.clients, userId))
    {
      var i :| 0 <= i < |r.invoices| && r.invoices[i] == v;
      assert OtherUsersInvoice(userId)(kept[i]);
    }
  }

  /** Everything of the other users remains: their profiles, clients, subscriptions and
      the items of their invoices as they were, their invoices with the reference to a
      deleted client cleared. */
  lemma WithoutProfileKeepsOthers(s: Tables, userId: nat)
    ensures var r := WithoutProfile(s, userId);
      (forall p :: p in s.profiles && p.id != userId ==> p in r.profiles)
      && (forall c :: c in s.clients && c.userId != userId ==> c in r.clients)
      && (forall v :: v in s.invoices && v.userId != userId ==>
            (if v.clientId.Some? && v.clientId.value in ClientsOf(s.clients, userId)
             then v.(clientId := None) else v) in r.invoices)
      && (forall it :: it in s.items && it.invoiceId !in InvoicesOf(s.invoices, userId) ==> it in r.items)
      && (forall x :: x in s.subscriptions && x.userId != userId ==> x in r.subscriptions)
  {
    var r := WithoutProfile(s, userId);
    var kept := Filter(s.invoices, OtherUsersInvoice(userId));
    var gone := ClientsOf(s.clients, userId);
    forall p | p in s.profiles && p.id != userId ensures p in r.profiles {
      var i :| 0 <= i < |s.profiles| && s.profiles[i] == p;
      assert OtherProfile(userId)(s.profiles[i]);
    }
    forall c | c in s.clients && c.userId != userId ensures c in r.clients {
      var i :| 0 <= i < |s.clients| && s.clients[i] == c;
      assert OtherUsersClient(userId)(s.clients[i]);
    }
    forall v | v in s.invoices && v.userId != userId
      ensures (if v.clientId.Some? && v.clientId.value in gone then v.(clientId := None) else v) in r.invoices
    {
      var i :| 0 <= i < |s.invoices| && s.invoices[i] == v;
      assert OtherUsersInvoice(userId)(s.invoices[i]);
      assert v in kept;
      var j :| 0 <= j < |kept| && kept[j] == v;
      assert r.invoices[j] in r.invoices;
    }
    forall it | it in s.items && it.invoiceId !in InvoicesOf(s.invoices, userId) ensures it in r.items {
      var i :| 0 <= i < |s.items| && s.items[i] == it;
      assert ItemOfKept(InvoicesOf(s.invoices, userId))(s.items[i]);
    }
    forall x | x in s.subscriptions && x.userId != userId ensures x in r.subscriptions {
      var i :| 0 <= i < |s.subscriptions| && s.subscriptions[i] == x;
      assert OtherUsersSubscription(userId)(s.subscriptions[i]);
    }
  }

  /** The cascade keeps the schema's constraints. */
  lemma WithoutProfileKeepsValid(s: Tables, userId: nat)
    requires ValidTables(s)
    ensures ValidTables(WithoutProfile(s, userId))
  {
    WithoutProfileKeepsKeys(s, userId);
    WithoutProfileKeepsReferences(s, userId);
  }

  /** The cascade keeps every key unique. */
  lemma WithoutProfileKeepsKeys(s: Tables, userId: nat)
    requires KeysHold(s.profiles, s.clients, s.invoices, s.items, s.subscriptions, s.nextId)
    ensures var r := WithoutProfile(s, userId);
      KeysHold(r.profiles, r.clients, r.invoices, r.items, r.subscriptions, r.nextId)
  {
    var n := s.nextId;
    var keepProfile, keepClient := OtherProfile(userId), OtherUsersClient(userId);
    var keepInvoice, keepSubscription := OtherUsersInvoice(userId), OtherUsersSubscription(userId);
    var keepItem := ItemOfKept(InvoicesOf(s.invoices, userId));
    FilterDistinctBy(s.profiles, keepProfile, ProfileKey);
    FilterIdsBelow(s.profiles, keepProfile, ProfileKey, n);
    FilterDistinctBy(s.clients, keepClient, ClientKey);
    FilterIdsBelow(s.clients, keepClient, ClientKey, n);
    FilterDistinctBy(s.invoices, keepInvoice, InvoiceKey);
    FilterDistinctBy(s.invoices, keepInvoice, InvoiceNumberKey);
    FilterIdsBelow(s.invoices, keepInvoice, InvoiceKey, n);
    DetachClientsKeepsKeys(Filter(s.invoices, keepInvoice), ClientsOf(s.clients, userId), n);
    FilterDistinctBy(s.items, keepItem, ItemKey);
    FilterIdsBelow(s.items, keepItem, ItemKey, n);
    FilterDistinctBy(s.subscriptions, keepSubscription, SubscriptionKey);
    FilterDistinctBy(s.subscriptions, keepSubscription, SubscriptionUserKey);
    FilterDistinctBy(s.subscriptions, keepSubscription, CustomerKey);
    FilterDistinctPresentBy(s.subscriptions, keepSubscription, StripeSubscriptionKey);
    FilterIdsBelow(s.subscriptions, keepSubscription, SubscriptionKey, n);
  }

  /** The cascade leaves no dangling reference. */
  lemma WithoutProfileKeepsReferences(s: Tables, userId: nat)
    requires ReferencesHold(s.profiles, s.clients, s.invoices, s.items, s.subscriptions)
    ensures var r := WithoutProfile(s, userId);
      ReferencesHold(r.profiles, r.clients, r.invoices, r.items, r.subscriptions)
  {
    var r := WithoutProfile(s, userId);
    OtherProfilesRemain(s, userId);
    InvoiceReferencesRemain(s, userId);
    ItemReferencesRemain(s, userId);
    forall c | c in r.clients
      ensures c.userId in ProfileIds(r.profiles)
    {
      var i :| 0 <= i < |r.clients| && r.clients[i] == c;
      assert OtherUsersClient(userId)(r.clients[i]);
    }
    forall x | x in r.subscriptions
      ensures x.userId in ProfileIds(r.profiles)
    {
      var i :| 0 <= i < |r.subscriptions| && r.subscriptions[i] == x;
      assert OtherUsersSubscription(userId)(r.subscriptions[i]);
    }
  }

  /** Every profile other than the deleted one remains. */
  lemma OtherProfilesRemain(s: Tables, userId: nat)
    ensures forall u :: u in ProfileIds(s.profiles) && u != userId ==>
      u in ProfileIds(WithoutProfile(s, userId).profiles)
  {
    var kept := WithoutProfile(s, userId).profiles;
    forall u | u in ProfileIds(s.profiles) && u != userId
      ensures u in ProfileIds(kept)
    {
      var p :| p in s.profiles && p.id == u;
      var i :| 0 <= i < |s.profiles| && s.profiles[i] == p;
      assert OtherProfile(userId)(s.profiles[i]);
      assert p in kept;
    }
  }

  /** After the cascade every remaining invoice has its profile, and its client unless
      the reference was cleared. */
  lemma InvoiceReferencesRemain(s: Tables, userId: nat)
    requires forall v :: v in s.invoices ==> v.userId in ProfileIds(s.profiles)
    requires forall v :: v in s.invoices && v.clientId.Some? ==> v.clientId.value in ClientIds(s.clients)
    requires forall u :: u in ProfileIds(s.profiles) && u != userId ==>
      u in ProfileIds(WithoutProfile(s, userId).profiles)
    ensures var r := WithoutProfile(s, userId);
      (forall v :: v in r.invoices ==> v.userId in ProfileIds(r.profiles))
      && (forall v :: v in r.invoices && v.clientId.Some? ==> v.clientId.value in ClientIds(r.clients))
  {
    var r := WithoutProfile(s, userId);
    var kept := Filter(s.invoices, OtherUsersInvoice(userId));
    var gone := ClientsOf(s.clients, userId);
    forall v | v in r.invoices
      ensures v.userId in ProfileIds(r.profiles)
      ensures v.clientId.Some? ==> v.clientId.value in ClientIds(r.clients)
    {
      var i :| 0 <= i < |r.invoices| && r.invoices[i] == v;
      var w := kept[i];
      assert w in s.invoices && OtherUsersInvoice(userId)(w);
      if v.clientId.Some? {
        assert w.clientId == v.clientId && v.clientId.value !in gone;
        var c :| c in s.clients && c.id == v.clientId.value;
        var j :| 0 <= j < |s.clients| && s.clients[j] == c;
        assert OtherUsersClient(userId)(s.clients[j]);
        assert c in r.clients;
      }
    }
  }

  /** After the cascade every remaining item still has its invoice. */
  lemma ItemReferencesRemain(s: Tables, userId: nat)
    requires forall it :: it in s.items ==> it.invoiceId in InvoiceIds(s.invoices)
    ensures var r := WithoutProfile(s, userId);
      forall it :: it in r.items ==> it.invoiceId in InvoiceIds(r.invoices)
  {
    var r := WithoutProfile(s, userId);
    var kept := Filter(s.invoices, OtherUsersInvoice(userId));
    forall it | it in r.items
      ensures it.invoiceId in InvoiceIds(r.invoices)
    {
      var j :| 0 <= j < |r.items| && r.items[j] == it;
      assert ItemOfKept(InvoicesOf(s.invoices, userId))(r.items[j]);
      var w :| w in s.invoices && w.id == it.invoiceId;
      var k :| 0 <= k < |s.invoices| && s.invoices[k] == w;
      assert OtherUsersInvoice(userId)(s.invoices[k]);
      assert w in kept;
      var i :| 0 <= i < |kept| && kept[i] == w;
      assert r.invoices[i].id == w.id;
      assert r.invoices[i] in r.invoices;
    }
  }
}
