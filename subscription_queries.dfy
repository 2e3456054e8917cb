/** The subscription queries: the two getters, `createSubscription`, and the two keyed
    partial updates, `updateSubscription` (by Stripe customer) and
    `updateSubscriptionBySubscriptionId`. An update rewrites the fields its patch holds
    on every row its key selects, and raises when the result breaks the uniqueness of
    Stripe subscription ids; a key no row has changes nothing. */
module SubscriptionQueries {
  import opened Wrappers
  import opened Seqs
  import opened SubscriptionsSchema
  import opened Db

  /** The `data` of an update: each field is absent (`None`) or the value to write. id,
      userId, stripeCustomerId and createdAt are not among them; updatedAt is always
      overwritten with the clock. */
  datatype Patch = Patch(
    stripeSubscriptionId: Option<Option<string>>,
    stripePriceId: Option<Option<string>>,
    status: Option<SubscriptionStatus>,
    currentPeriodStart: Option<Option<int>>,
    currentPeriodEnd: Option<Option<int>>,
    cancelAtPeriodEnd: Option<bool>)

  /** `{ ...data, updatedAt: new Date() }` applied to one row. */
  function Patched(r: SubscriptionRow, p: Patch, now: int): (r': SubscriptionRow)
    ensures r'.id == r.id && r'.userId == r.userId && r'.stripeCustomerId == r.stripeCustomerId
            && r'.createdAt == r.createdAt && r'.updatedAt == now
    ensures r'.stripeSubscriptionId == if p.stripeSubscriptionId.Some? then p.stripeSubscriptionId.value else r.stripeSubscriptionId
    ensures r'.stripePriceId == if p.stripePriceId.Some? then p.stripePriceId.value else r.stripePriceId
    ensures r'.status == if p.status.Some? then p.status.value else r.status
    ensures r'.currentPeriodStart == if p.currentPeriodStart.Some? then p.currentPeriodStart.value else r.currentPeriodStart
    ensures r'.currentPeriodEnd == if p.currentPeriodEnd.Some? then p.currentPeriodEnd.value else r.currentPeriodEnd
    ensures r'.cancelAtPeriodEnd == if p.cancelAtPeriodEnd.Some? then p.cancelAtPeriodEnd.value else r.cancelAtPeriodEnd
  {
    r.(stripeSubscriptionId := if p.stripeSubscriptionId.Some? then p.stripeSubscriptionId.value else r.stripeSubscriptionId,
       stripePriceId := if p.stripePriceId.Some? then p.stripePriceId.value else r.stripePriceId,
       status := if p.status.Some? then p.status.value else r.status,
       currentPeriodStart := if p.currentPeriodStart.Some? then p.currentPeriodStart.value else r.currentPeriodStart,
       currentPeriodEnd := if p.currentPeriodEnd.Some? then p.currentPeriodEnd.value else r.currentPeriodEnd,
       cancelAtPeriodEnd := if p.cancelAtPeriodEnd.Some? then p.cancelAtPeriodEnd.value else r.cancelAtPeriodEnd,
       updatedAt := now)
  }

  /** Two rows that differ at most in updatedAt. */
  predicate SameApartFromUpdatedAt(a: SubscriptionRow, b: SubscriptionRow) {
    a.(updatedAt := 0) == b.(updatedAt := 0)
  }

  /** A patch applied twice leaves the row as applying it once does, but for the time. */
  lemma PatchIsIdempotent(r: SubscriptionRow, p: Patch, t1: int, t2: int)
    ensures SameApartFromUpdatedAt(Patched(Patched(r, p, t1), p, t2), Patched(r, p, t1))
    ensures Patched(Patched(r, p, t1), p, t2) == Patched(r, p, t2)
  {
  }

  /** The `WHERE` of the two updates: a customer id, or a Stripe subscription id (a null
      column never equals it). */
  datatype Key = Customer(customerId: string) | StripeSubscription(subscriptionId: string)

  predicate Selects(k: Key, r: SubscriptionRow) {
    match k
    case Customer(c) => r.stripeCustomerId == c
    case StripeSubscription(id) => r.stripeSubscriptionId == Some(id)
  }

  /** The table after the update, whether or not Postgres then accepts it. */
  function Updated(t: seq<SubscriptionRow>, k: Key, p: Patch, now: int): (r: seq<SubscriptionRow>)
    ensures |r| == |t|
    ensures forall i :: 0 <= i < |t| ==> r[i] == if Selects(k, t[i]) then Patched(t[i], p, now) else t[i]
  {
    seq(|t|, i requires 0 <= i < |t| => if Selects(k, t[i]) then Patched(t[i], p, now) else t[i])
  }

  /** The first row `RETURNING` gives back, or null when the key selects nothing. */
  function FirstUpdated(t: seq<SubscriptionRow>, k: Key, p: Patch, now: int): (r: Option<SubscriptionRow>)
    ensures r.None? <==> forall i :: 0 <= i < |t| ==> !Selects(k, t[i])
    ensures r.Some? ==> exists i :: 0 <= i < |t| && Selects(k, t[i]) && r.value == Patched(t[i], p, now)
  {
    if t == [] then None
    else if Selects(k, t[0]) then Some(Patched(t[0], p, now))
    else
      var rest := FirstUpdated(t[1..], k, p, now);
      assert rest.Some? ==> exists i :: 0 <= i < |t| && Selects(k, t[i]) && rest.value == Patched(t[i], p, now) by {
        if rest.Some? {
          var i :| 0 <= i < |t[1..]| && Selects(k, t[1..][i]) && rest.value == Patched(t[1..][i], p, now);
          assert t[i + 1] == t[1..][i];
        }
      }
      assert (forall i :: 0 <= i < |t[1..]| ==> !Selects(k, t[1..][i])) <==> (forall i :: 0 <= i < |t| ==> !Selects(k, t[i])) by {
        assert forall i :: 1 <= i < |t| ==> t[i] == t[1..][i - 1];
      }
      rest
  }

  /** A key no row has is a no-op that returns null. */
  lemma UnknownKeyIsNoOp(t: seq<SubscriptionRow>, k: Key, p: Patch, now: int)
    requires forall i :: 0 <= i < |t| ==> !Selects(k, t[i])
    ensures Updated(t, k, p, now) == t && FirstUpdated(t, k, p, now).None?
  {
  }

  /** A customer id selects at most one row, so `updateSubscription` changes at most one. */
  lemma CustomerSelectsOneRow(t: seq<SubscriptionRow>, customerId: string, i: nat, j: nat)
    requires DistinctBy(t, CustomerKey)
    requires i < |t| && j < |t| && Selects(Customer(customerId), t[i]) && Selects(Customer(customerId), t[j])
    ensures i == j
  {
    assert CustomerKey(t[i]) == CustomerKey(t[j]);
  }

  /** A Stripe subscription id selects at most one row as well. */
  lemma SubscriptionIdSelectsOneRow(t: seq<SubscriptionRow>, subscriptionId: string, i: nat, j: nat)
    requires DistinctPresentBy(t, StripeSubscriptionKey)
    requires i < |t| && j < |t|
    requires Selects(StripeSubscription(subscriptionId), t[i]) && Selects(StripeSubscription(subscriptionId), t[j])
    ensures i == j
  {
    assert StripeSubscriptionKey(t[i]) == StripeSubscriptionKey(t[j]);
  }

  /** Updating twice with the same patch: every row ends as after the first update, but
      for updatedAt. (When the patch rewrites the key itself the second update may select
      nothing, so the times can differ.) */
  lemma UpdateIsIdempotent(t: seq<SubscriptionRow>, k: Key, p: Patch, t1: int, t2: int)
    ensures var once := Updated(t, k, p, t1);
      var twice := Updated(once, k, p, t2);
      |twice| == |once| && forall i :: 0 <= i < |t| ==> SameApartFromUpdatedAt(twice[i], once[i])
  {
    var once := Updated(t, k, p, t1);
    forall i | 0 <= i < |t| ensures SameApartFromUpdatedAt(Updated(once, k, p, t2)[i], once[i]) {
      if Selects(k, t[i]) {
        PatchIsIdempotent(t[i], p, t1, t2);
      }
    }
  }

  /** An update keeps ids, owners and customers; so when Stripe subscription ids stay
      unique, every key and reference still holds. */
  lemma UpdateKeepsKeys(t: seq<SubscriptionRow>, k: Key, p: Patch, now: int, nextId: nat)
    requires SubscriptionKeysHold(t, nextId)
    requires DistinctPresentBy(Updated(t, k, p, now), StripeSubscriptionKey)
    ensures SubscriptionKeysHold(Updated(t, k, p, now), nextId)
  {
    var u := Updated(t, k, p, now);
    assert forall i :: 0 <= i < |t| ==>
      u[i].id == t[i].id && u[i].userId == t[i].userId && u[i].stripeCustomerId == t[i].stripeCustomerId;
    assert forall i :: 0 <= i < |t| ==> Keys(u, SubscriptionKey)[i] == Keys(t, SubscriptionKey)[i];
  }

  /** A patch that does not set a Stripe subscription id never breaks its uniqueness. */
  lemma UpdateWithoutNewSubscriptionIdKeepsUnique(t: seq<SubscriptionRow>, k: Key, p: Patch, now: int)
    requires DistinctPresentBy(t, StripeSubscriptionKey)
    requires p.stripeSubscriptionId.None? || p.stripeSubscriptionId.value.None?
    ensures DistinctPresentBy(Updated(t, k, p, now), StripeSubscriptionKey)
  {
    var u := Updated(t, k, p, now);
    forall i, j | 0 <= i < j < |u| && StripeSubscriptionKey(u[i]).Some?
      ensures StripeSubscriptionKey(u[i]) != StripeSubscriptionKey(u[j])
    {
      assert u[i].stripeSubscriptionId == t[i].stripeSubscriptionId;
      assert StripeSubscriptionKey(t[i]) != StripeSubscriptionKey(t[j]);
    }
  }

  /** Writing a Stripe subscription id that an unselected row holds breaks its uniqueness,
      so Postgres refuses the update. */
  lemma TakenSubscriptionIdIsRefused(t: seq<SubscriptionRow>, k: Key, p: Patch, now: int, i: nat, j: nat)
    requires i < |t| && j < |t| && Selects(k, t[i]) && !Selects(k, t[j])
    requires p.stripeSubscriptionId == Some(t[j].stripeSubscriptionId) && t[j].stripeSubscriptionId.Some?
    ensures !DistinctPresentBy(Updated(t, k, p, now), StripeSubscriptionKey)
  {
    var u := Updated(t, k, p, now);
    assert u[i].stripeSubscriptionId == t[j].stripeSubscriptionId == u[j].stripeSubscriptionId;
    if i < j {
      assert !(StripeSubscriptionKey(u[i]) != StripeSubscriptionKey(u[j]));
    } else {
      assert !(StripeSubscriptionKey(u[j]) != StripeSubscriptionKey(u[i]));
    }
  }

  /** Runs an update on the subscriptions table: the rows the key selects are patched, and
      the first of them is returned; Postgres refuses it when two rows would then share a
      Stripe subscription id. Nothing else changes. */
  method ApplyUpdate(db: Database, k: Key, p: Patch, now: int) returns (r: Outcome<Option<SubscriptionRow>>)
    requires db.Valid()
    modifies db
    ensures db.Valid()
    ensures db.profiles == old(db.profiles) && db.clients == old(db.clients) && db.invoices == old(db.invoices)
            && db.items == old(db.items) && db.nextId == old(db.nextId)
    ensures var u := Updated(old(db.subscriptions), k, p, now);
      if DistinctPresentBy(u, StripeSubscriptionKey)
      then r == Ok(FirstUpdated(old(db.subscriptions), k, p, now)) && db.subscriptions == u
      else r.Raised? && db.subscriptions == old(db.subscriptions)
  {
    var u := Updated(db.subscriptions, k, p, now);
    if !DistinctPresentBy(u, StripeSubscriptionKey) {
      return Raised(DatabaseError);
    }
    UpdateKeepsKeys(db.subscriptions, k, p, now, db.nextId);
    r := Ok(FirstUpdated(db.subscriptions, k, p, now));
    db.subscriptions := u;
  }

  /** `updateSubscription`: the update keyed by Stripe customer id. */
  method UpdateSubscription(db: Database, stripeCustomerId: string, p: Patch, now: int)
    returns (r: Outcome<Option<SubscriptionRow>>)
    requires db.Valid()
    modifies db
    ensures db.Valid()
    ensures db.profiles == old(db.profiles) && db.clients == old(db.clients) && db.invoices == old(db.invoices)
            && db.items == old(db.items) && db.nextId == old(db.nextId)
    ensures var k := Customer(stripeCustomerId);
      var u := Updated(old(db.subscriptions), k, p, now);
      if DistinctPresentBy(u, StripeSubscriptionKey)
      then r == Ok(FirstUpdated(old(db.subscriptions), k, p, now)) && db.subscriptions == u
      else r.Raised? && db.subscriptions == old(db.subscriptions)
  {
    r := ApplyUpdate(db, Customer(stripeCustomerId), p, now);
  }

  /** `updateSubscriptionBySubscriptionId`: the same update keyed by Stripe subscription id. */
  method UpdateSubscriptionBySubscriptionId(db: Database, stripeSubscriptionId: string, p: Patch, now: int)
    returns (r: Outcome<Option<SubscriptionRow>>)
    requires db.Valid()
    modifies db
    ensures db.Valid()
    ensures db.profiles == old(db.profiles) && db.clients == old(db.clients) && db.invoices == old(db.invoices)
            && db.items == old(db.items) && db.nextId == old(db.nextId)
    ensures var k := StripeSubscription(stripeSubscriptionId);
      var u := Updated(old(db.subscriptions), k, p, now);
      if DistinctPresentBy(u, StripeSubscriptionKey)
      then r == Ok(FirstUpdated(old(db.subscriptions), k, p, now)) && db.subscriptions == u
      else r.Raised? && db.subscriptions == old(db.subscriptions)
  {
    r := ApplyUpdate(db, StripeSubscription(stripeSubscriptionId), p, now);
  }

  // ---------------------------------------------------------------------------------
  // Reads

  /** `getSubscriptionByUserId`: the first row of the user, or null. */
  function GetSubscriptionByUserId(t: seq<SubscriptionRow>, userId: nat): (r: Option<SubscriptionRow>)
    ensures r.Some? ==> r.value in t && r.value.userId == userId
    ensures r.None? <==> forall i :: 0 <= i < |t| ==> t[i].userId != userId
  {
    if t == [] then None
    else if t[0].userId == userId then Some(t[0])
    else
      assert forall i :: 1 <= i < |t| ==> t[i] == t[1..][i - 1];
      GetSubscriptionByUserId(t[1..], userId)
  }

  /** `getSubscriptionByStripeCustomerId`: the first row of the customer, or null. */
  function GetSubscriptionByStripeCustomerId(t: seq<SubscriptionRow>, customerId: string): (r: Option<SubscriptionRow>)
    ensures r.Some? ==> r.value in t && r.value.stripeCustomerId == customerId
    ensures r.None? <==> forall i :: 0 <= i < |t| ==> t[i].stripeCustomerId != customerId
  {
    if t == [] then None
    else if t[0].stripeCustomerId == customerId then Some(t[0])
    else
      assert forall i :: 1 <= i < |t| ==> t[i] == t[1..][i - 1];
      GetSubscriptionByStripeCustomerId(t[1..], customerId)
  }

  /** With one subscription per user, the getter returns the user's row itself. */
  lemma UserSubscriptionIsUnique(t: seq<SubscriptionRow>, userId: nat, j: nat)
    requires DistinctBy(t, SubscriptionUserKey)
    requires j < |t| && t[j].userId == userId
    ensures GetSubscriptionByUserId(t, userId) == Some(t[j])
  {
    var r := GetSubscriptionByUserId(t, userId).value;
    var i :| 0 <= i < |t| && t[i] == r;
    assert SubscriptionUserKey(t[i]) == SubscriptionUserKey(t[j]);
  }

  // ---------------------------------------------------------------------------------
  // createSubscription

  /** A new row: the given owner and customer and every other column at its default. */
  function NewSubscription(id: nat, userId: nat, stripeCustomerId: string, now: int): (r: SubscriptionRow)
    ensures r.status == DefaultSubscriptionStatus && !r.cancelAtPeriodEnd
    ensures r.stripeSubscriptionId.None? && r.stripePriceId.None?
    ensures r.userId == userId && r.stripeCustomerId == stripeCustomerId
  {
    SubscriptionRow(id, userId, stripeCustomerId, None, None, DefaultSubscriptionStatus, None, None, false, now, now)
  }

  /** The insert succeeds when the user exists and neither the user nor the customer has
      a subscription yet. */
  predicate CanInsertSubscription(s: Tables, userId: nat, stripeCustomerId: string) {
    userId in ProfileIds(s.profiles)
    && (forall i :: 0 <= i < |s.subscriptions| ==> s.subscriptions[i].userId != userId)
    && (forall i :: 0 <= i < |s.subscriptions| ==> s.subscriptions[i].stripeCustomerId != stripeCustomerId)
  }

  /** The new row keeps every key and reference. */
  lemma InsertSubscriptionKeepsValid(s: Tables, userId: nat, stripeCustomerId: string, now: int)
    requires ValidTables(s) && CanInsertSubscription(s, userId, stripeCustomerId)
    ensures var row := NewSubscription(s.nextId, userId, stripeCustomerId, now);
      SubscriptionKeysHold(s.subscriptions + [row], s.nextId + 1)
      && forall x :: x in s.subscriptions + [row] ==> x.userId in ProfileIds(s.profiles)
  {
    var row := NewSubscription(s.nextId, userId, stripeCustomerId, now);
    var t := s.subscriptions + [row];
    AppendFreshKeys(s.subscriptions, [row], SubscriptionKey, s.nextId, s.nextId);
    AppendDistinctBy(s.subscriptions, row, SubscriptionUserKey);
    AppendDistinctBy(s.subscriptions, row, CustomerKey);
    assert DistinctPresentBy(t, StripeSubscriptionKey) by {
      forall i, j | 0 <= i < j < |t| && StripeSubscriptionKey(t[i]).Some?
        ensures StripeSubscriptionKey(t[i]) != StripeSubscriptionKey(t[j])
      {
        if j < |s.subscriptions| {
          assert t[i] == s.subscriptions[i] && t[j] == s.subscriptions[j];
        }
      }
    }
  }

  /** Every id in the subscription table is below the counter, so the new id is fresh. */
  lemma NextIdIsNotASubscriptionId(s: Tables)
    requires ValidTables(s)
    ensures forall i :: 0 <= i < |s.subscriptions| ==> s.subscriptions[i].id != s.nextId
  {
    forall i | 0 <= i < |s.subscriptions| ensures s.subscriptions[i].id != s.nextId {
      assert Keys(s.subscriptions, SubscriptionKey)[i] == s.subscriptions[i].id;
    }
  }

  /** After the insert the user's subscription is the new row. */
  lemma CreatedSubscriptionIsFound(s: Tables, userId: nat, stripeCustomerId: string, now: int)
    requires CanInsertSubscription(s, userId, stripeCustomerId)
    ensures var row := NewSubscription(s.nextId, userId, stripeCustomerId, now);
      GetSubscriptionByUserId(s.subscriptions + [row], userId) == Some(row)
      && GetSubscriptionByStripeCustomerId(s.subscriptions + [row], stripeCustomerId) == Some(row)
  {
    var row := NewSubscription(s.nextId, userId, stripeCustomerId, now);
    var t := s.subscriptions + [row];
    assert t[|s.subscriptions|] == row;
    var a := GetSubscriptionByUserId(t, userId).value;
    var i :| 0 <= i < |t| && t[i] == a;
    assert i == |s.subscriptions|;
    var b := GetSubscriptionByStripeCustomerId(t, stripeCustomerId).value;
    var j :| 0 <= j < |t| && t[j] == b;
    assert j == |s.subscriptions|;
  }

  /** `createSubscription`: the inserted row, or the error Postgres raises. */
  method CreateSubscription(db: Database, userId: nat, stripeCustomerId: string, now: int)
    returns (r: Outcome<SubscriptionRow>)
    requires db.Valid()
    modifies db
    ensures db.Valid()
    ensures db.profiles == old(db.profiles) && db.clients == old(db.clients) && db.invoices == old(db.invoices)
            && db.items == old(db.items)
    ensures r.Ok? <==> CanInsertSubscription(old(db.State()), userId, stripeCustomerId)
    ensures r.Ok? ==> r.value == NewSubscription(old(db.nextId), userId, stripeCustomerId, now)
                      && db.subscriptions == old(db.subscriptions) + [r.value] && db.nextId == old(db.nextId) + 1
    ensures r.Raised? ==> db.subscriptions == old(db.subscriptions) && db.nextId == old(db.nextId)
  {
    if !CanInsertSubscription(db.State(), userId, stripeCustomerId) {
      return Raised(DatabaseError);
    }
    InsertSubscriptionKeepsValid(db.State(), userId, stripeCustomerId, now);
    var row := NewSubscription(db.nextId, userId, stripeCustomerId, now);
    db.subscriptions, db.nextId := db.subscriptions + [row], db.nextId + 1;
    r := Ok(row);
  }
}
