/** The Stripe webhook endpoint: after the request's signature is checked it dispatches
    on the event type and applies one keyed update to the subscriptions table. The
    signature check and `stripe.subscriptions.retrieve` are outside the model: the
    verified event (or its absence) and the retrieve call are inputs. */
module StripeWebhook {
  import opened Wrappers
  import opened Text
  import opened Seqs
  import opened SubscriptionsSchema
  import opened Db
  import opened SubscriptionQueries

  /** The first item of a Stripe subscription: its price and its billing period, in
      seconds since the epoch. */
  datatype SubscriptionItem = SubscriptionItem(priceId: string, currentPeriodStart: int, currentPeriodEnd: int)

  /** The fields of a Stripe subscription that the handler reads. */
  datatype StripeSubscriptionObject = StripeSubscriptionObject(
    id: string,
    customer: string,
    status: SubscriptionStatus,
    firstItem: Option<SubscriptionItem>,
    cancelAtPeriodEnd: bool)

  /** `invoice.parent?.subscription_details?.subscription`: an id, or an expanded object. */
  datatype SubscriptionRef = ById(id: string) | Expanded(id: string)

  /** The fields of a Stripe invoice that the handler reads. */
  datatype StripeInvoiceObject = StripeInvoiceObject(customer: string, subscription: Option<SubscriptionRef>)

  /** A verified event, by type. */
  datatype Event =
    | SubscriptionCreated(subscription: StripeSubscriptionObject)
    | SubscriptionUpdated(subscription: StripeSubscriptionObject)
    | SubscriptionDeleted(subscription: StripeSubscriptionObject)
    | PaymentSucceeded(invoice: StripeInvoiceObject)
    | PaymentFailed(invoice: StripeInvoiceObject)
    | Unhandled(eventType: string)

  datatype Body = Received | Error(message: string)

  /** The HTTP status and the JSON body of the response. */
  datatype Response = Response(status: nat, body: Body)

  const MissingSignature: string := "Missing signature"
  const SecretNotConfigured: string := "Webhook secret not configured"
  const InvalidSignature: string := "Invalid signature"
  const ProcessingFailed: string := "Webhook processing failed"

  /** `if (subscriptionId)` and the id it leads to: an empty id string is falsy, an
      expanded object is not. */
  function ReferencedSubscription(ref: Option<SubscriptionRef>): (r: Option<string>)
    ensures r.Some? ==> ref.Some? && r.value == ref.value.id
    ensures r.None? <==> ref.None? || ref.value == ById("")
  {
    match ref
    case None => None
    case Some(ById(id)) => if id == "" then None else Some(id)
    case Some(Expanded(id)) => Some(id)
  }

  /** `new Date(seconds * 1000)` of the first item's period bounds, or null. */
  function PeriodStart(item: Option<SubscriptionItem>): Option<int> {
    if item.Some? then Some(item.value.currentPeriodStart * 1000) else None
  }

  function PeriodEnd(item: Option<SubscriptionItem>): Option<int> {
    if item.Some? then Some(item.value.currentPeriodEnd * 1000) else None
  }

  /** What a created or updated subscription writes on the customer's row. */
  function SyncPatch(sub: StripeSubscriptionObject): Patch {
    Patch(Some(Some(sub.id)),
          Some(if sub.firstItem.Some? then NullIfEmpty(Some(sub.firstItem.value.priceId)) else None),
          Some(sub.status), Some(PeriodStart(sub.firstItem)), Some(PeriodEnd(sub.firstItem)),
          Some(sub.cancelAtPeriodEnd))
  }

  /** What a deleted subscription writes on the row that holds it. */
  const CanceledPatch: Patch := Patch(Some(None), Some(None), Some(Canceled), None, None, None)

  /** What a paid invoice writes: the subscription's status and period, from Stripe. */
  function PaymentPatch(sub: StripeSubscriptionObject): Patch {
    Patch(None, None, Some(sub.status), Some(PeriodStart(sub.firstItem)), Some(PeriodEnd(sub.firstItem)), None)
  }

  /** What a failed payment writes. */
  const PastDuePatch: Patch := Patch(None, None, Some(PastDue), None, None, None)

  /** One update on the subscriptions table: the new table, or the error Postgres raises
      when two rows would share a Stripe subscription id. */
  function TableAfter(t: seq<SubscriptionRow>, k: Key, p: Patch, now: int): (r: Outcome<seq<SubscriptionRow>>)
    ensures r.Ok? ==> r.value == Updated(t, k, p, now)
  {
    var u := Updated(t, k, p, now);
    if DistinctPresentBy(u, StripeSubscriptionKey) then Ok(u) else Raised(DatabaseError)
  }

  /** The subscriptions table after a verified event is handled, or the error handling it
      raised (an update Postgres refused, or a failed retrieve). */
  function Handled(t: seq<SubscriptionRow>, e: Event, retrieve: string -> Outcome<StripeSubscriptionObject>,
                   now: int): Outcome<seq<SubscriptionRow>>
  {
    match e
    case SubscriptionCreated(sub) => TableAfter(t, Customer(sub.customer), SyncPatch(sub), now)
    case SubscriptionUpdated(sub) => TableAfter(t, Customer(sub.customer), SyncPatch(sub), now)
    case SubscriptionDeleted(sub) => TableAfter(t, StripeSubscription(sub.id), CanceledPatch, now)
    case PaymentSucceeded(inv) =>
      (match ReferencedSubscription(inv.subscription)
       case None => Ok(t)
       case Some(id) =>
         match retrieve(id)
         case Raised(err) => Raised(err)
         case Ok(sub) => TableAfter(t, Customer(inv.customer), PaymentPatch(sub), now))
    case PaymentFailed(inv) =>
      if ReferencedSubscription(inv.subscription).None? then Ok(t)
      else TableAfter(t, Customer(inv.customer), PastDuePatch, now)
    case Unhandled(_) => Ok(t)
  }

  /** The response to a request and the subscriptions table after it. Only a request with
      a signature, a configured secret, a verified event and no error while handling it
      is answered 200, and only such a request changes the table. */
  function Respond(t: seq<SubscriptionRow>, signature: Option<string>, secret: Option<string>, event: Option<Event>,
                   retrieve: string -> Outcome<StripeSubscriptionObject>, now: int): (r: (Response, seq<SubscriptionRow>))
    ensures r.0.status == 200 <==>
      signature.Some? && signature.value != "" && secret.Some? && secret.value != "" && event.Some?
      && Handled(t, event.value, retrieve, now).Ok?
    ensures r.0.status == 200 ==> r.0.body == Received && r.1 == Handled(t, event.value, retrieve, now).value
    ensures r.0.status != 200 ==> r.0.body.Error? && r.1 == t
    ensures r.0.status in {200, 400, 500}
  {
    if signature.None? || signature.value == "" then (Response(400, Error(MissingSignature)), t)
    else if secret.None? || secret.value == "" then (Response(500, Error(SecretNotConfigured)), t)
    else if event.None? then (Response(400, Error(InvalidSignature)), t)
    else match Handled(t, event.value, retrieve, now)
      case Ok(t') => (Response(200, Received), t')
      case Raised(_) => (Response(500, Error(ProcessingFailed)), t)
  }

  /** A missing signature is answered 400, a missing secret 500, and an event that fails
      verification 400; none of them touches the table. */
  lemma RejectedRequestsChangeNothing(t: seq<SubscriptionRow>, signature: Option<string>, secret: Option<string>,
                                      event: Option<Event>, retrieve: string -> Outcome<StripeSubscriptionObject>, now: int)
    ensures signature.None? || signature.value == "" ==>
      Respond(t, signature, secret, event, retrieve, now) == (Response(400, Error(MissingSignature)), t)
    ensures signature.Some? && signature.value != "" && (secret.None? || secret.value == "") ==>
      Respond(t, signature, secret, event, retrieve, now) == (Response(500, Error(SecretNotConfigured)), t)
    ensures signature.Some? && signature.value != "" && secret.Some? && secret.value != "" && event.None? ==>
      Respond(t, signature, secret, event, retrieve, now) == (Response(400, Error(InvalidSignature)), t)
  {
  }

  /** A created or updated subscription rewrites the customer's row: the subscription id,
      the first item's price (null without one), the status, the first item's period and
      the cancel flag. Rows of other customers are untouched. */
  lemma SyncEventRewritesCustomerRow(t: seq<SubscriptionRow>, e: Event, retrieve: string -> Outcome<StripeSubscriptionObject>,
                                     now: int, i: nat)
    requires e.SubscriptionCreated? || e.SubscriptionUpdated?
    requires Handled(t, e, retrieve, now).Ok? && i < |t|
    ensures var sub := e.subscription;
      var row := Handled(t, e, retrieve, now).value[i];
      if t[i].stripeCustomerId == sub.customer
      then row.stripeSubscriptionId == Some(sub.id) && row.status == sub.status
           && row.stripePriceId == (if sub.firstItem.Some? && sub.firstItem.value.priceId != ""
                                    then Some(sub.firstItem.value.priceId) else None)
           && row.currentPeriodStart == PeriodStart(sub.firstItem) && row.currentPeriodEnd == PeriodEnd(sub.firstItem)
           && row.cancelAtPeriodEnd == sub.cancelAtPeriodEnd && row.updatedAt == now
           && row.userId == t[i].userId && row.stripeCustomerId == t[i].stripeCustomerId
      else row == t[i]
  {
  }

  /** A deleted subscription cancels the row holding it and clears its subscription and
      price ids and nothing else; such an update is never refused. */
  lemma DeletedEventCancels(t: seq<SubscriptionRow>, sub: StripeSubscriptionObject,
                            retrieve: string -> Outcome<StripeSubscriptionObject>, now: int)
    requires DistinctPresentBy(t, StripeSubscriptionKey)
    ensures Handled(t, SubscriptionDeleted(sub), retrieve, now).Ok?
    ensures var u := Handled(t, SubscriptionDeleted(sub), retrieve, now).value;
      |u| == |t| && forall i :: 0 <= i < |t| ==>
        u[i] == if t[i].stripeSubscriptionId == Some(sub.id)
                then t[i].(status := Canceled, stripeSubscriptionId := None, stripePriceId := None, updatedAt := now)
                else t[i]
  {
    UpdateWithoutNewSubscriptionIdKeepsUnique(t, StripeSubscription(sub.id), CanceledPatch, now);
  }

  /** A paid invoice never changes a row's plan: its subscription id, price and cancel
      flag stay as they were; only the status and the period can change. */
  lemma PaymentSucceededKeepsPlan(t: seq<SubscriptionRow>, inv: StripeInvoiceObject,
                                  retrieve: string -> Outcome<StripeSubscriptionObject>, now: int)
    requires DistinctPresentBy(t, StripeSubscriptionKey)
    requires Handled(t, PaymentSucceeded(inv), retrieve, now).Ok?
    ensures var u := Handled(t, PaymentSucceeded(inv), retrieve, now).value;
      |u| == |t| && forall i :: 0 <= i < |t| ==>
        u[i].stripeSubscriptionId == t[i].stripeSubscriptionId && u[i].stripePriceId == t[i].stripePriceId
        && u[i].cancelAtPeriodEnd == t[i].cancelAtPeriodEnd
        && (u[i] != t[i] ==> t[i].stripeCustomerId == inv.customer)
  {
  }

  /** A paid invoice that names a subscription is processed only if Stripe returns it:
      a failed retrieve is an error, and then nothing changes. */
  lemma FailedRetrieveFailsHandling(t: seq<SubscriptionRow>, inv: StripeInvoiceObject,
                                    retrieve: string -> Outcome<StripeSubscriptionObject>, now: int,
                                    signature: string, secret: string)
    requires signature != "" && secret != ""
    requires ReferencedSubscription(inv.subscription).Some?
    requires retrieve(ReferencedSubscription(inv.subscription).value).Raised?
    ensures Handled(t, PaymentSucceeded(inv), retrieve, now).Raised?
    ensures Respond(t, Some(signature), Some(secret), Some(PaymentSucceeded(inv)), retrieve, now)
            == (Response(500, Error(ProcessingFailed)), t)
  {
  }

  /** A failed payment that names a subscription marks the customer's row past due and
      changes nothing else but the time; one that names none changes nothing. */
  lemma PaymentFailedMarksPastDue(t: seq<SubscriptionRow>, inv: StripeInvoiceObject,
                                  retrieve: string -> Outcome<StripeSubscriptionObject>, now: int)
    requires DistinctPresentBy(t, StripeSubscriptionKey)
    ensures Handled(t, PaymentFailed(inv), retrieve, now).Ok?
    ensures var u := Handled(t, PaymentFailed(inv), retrieve, now).value;
      |u| == |t| && forall i :: 0 <= i < |t| ==>
        u[i] == if ReferencedSubscription(inv.subscription).Some? && t[i].stripeCustomerId == inv.customer
                then t[i].(status := PastDue, updatedAt := now)
                else t[i]
  {
    UpdateWithoutNewSubscriptionIdKeepsUnique(t, Customer(inv.customer), PastDuePatch, now);
  }

  /** An event of any other type is acknowledged and changes nothing. */
  lemma UnhandledEventIsAcknowledged(t: seq<SubscriptionRow>, eventType: string,
                                     retrieve: string -> Outcome<StripeSubscriptionObject>, now: int,
                                     signature: string, secret: string)
    requires signature != "" && secret != ""
    ensures Respond(t, Some(signature), Some(secret), Some(Unhandled(eventType)), retrieve, now)
            == (Response(200, Received), t)
  {
  }

  /** `POST /api/stripe/webhook`. */
  method HandleWebhook(db: Database, signature: Option<string>, secret: Option<string>, event: Option<Event>,
                       retrieve: string -> Outcome<StripeSubscriptionObject>, now: int) returns (resp: Response)
    requires db.Valid()
    modifies db
    ensures db.Valid()
    ensures db.profiles == old(db.profiles) && db.clients == old(db.clients) && db.invoices == old(db.invoices)
            && db.items == old(db.items) && db.nextId == old(db.nextId)
    ensures (resp, db.subscriptions) == Respond(old(db.subscriptions), signature, secret, event, retrieve, now)
  {
    if signature.None? || signature.value == "" {
      return Response(400, Error(MissingSignature));
    }
    if secret.None? || secret.value == "" {
      return Response(500, Error(SecretNotConfigured));
    }
    if event.None? {
      return Response(400, Error(InvalidSignature));
    }
    var handled := HandleEvent(db, event.value, retrieve, now);
    if !handled {
      return Response(500, Error(ProcessingFailed));
    }
    resp := Response(200, Received);
  }

  /** The `switch` on the event type: the update each event makes, and whether it went
      through. */
  method HandleEvent(db: Database, e: Event, retrieve: string -> Outcome<StripeSubscriptionObject>, now: int)
    returns (handled: bool)
    requires db.Valid()
    modifies db
    ensures db.Valid()
    ensures db.profiles == old(db.profiles) && db.clients == old(db.clients) && db.invoices == old(db.invoices)
            && db.items == old(db.items) && db.nextId == old(db.nextId)
    ensures handled <==> Handled(old(db.subscriptions), e, retrieve, now).Ok?
    ensures db.subscriptions == if handled then Handled(old(db.subscriptions), e, retrieve, now).value
                                else old(db.subscriptions)
  {
    match e {
      case SubscriptionCreated(sub) =>
        handled := ApplyPatch(db, Customer(sub.customer), SyncPatch(sub), now);
      case SubscriptionUpdated(sub) =>
        handled := ApplyPatch(db, Customer(sub.customer), SyncPatch(sub), now);
      case SubscriptionDeleted(sub) =>
        handled := ApplyPatch(db, StripeSubscription(sub.id), CanceledPatch, now);
      case PaymentSucceeded(inv) =>
        var id := ReferencedSubscription(inv.subscription);
        if id.None? {
          return true;
        }
        var sub := retrieve(id.value);
        if sub.Raised? {
          return false;
        }
        handled := ApplyPatch(db, Customer(inv.customer), PaymentPatch(sub.value), now);
      case PaymentFailed(inv) =>
        if ReferencedSubscription(inv.subscription).None? {
          return true;
        }
        handled := ApplyPatch(db, Customer(inv.customer), PastDuePatch, now);
      case Unhandled(_) =>
        handled := true;
    }
  }

  /** One `update(subscriptions)` by either key, and whether Postgres accepted it. */
  method ApplyPatch(db: Database, k: Key, p: Patch, now: int) returns (handled: bool)
    requires db.Valid()
    modifies db
    ensures db.Valid()
    ensures db.profiles == old(db.profiles) && db.clients == old(db.clients) && db.invoices == old(db.invoices)
            && db.items == old(db.items) && db.nextId == old(db.nextId)
    ensures handled <==> TableAfter(old(db.subscriptions), k, p, now).Ok?
    ensures db.subscriptions == if handled then TableAfter(old(db.subscriptions), k, p, now).value
                                else old(db.subscriptions)
  {
    var outcome;
    match k {
      case Customer(customerId) =>
        outcome := UpdateSubscription(db, customerId, p, now);
      case StripeSubscription(subscriptionId) =>
        outcome := UpdateSubscriptionBySubscriptionId(db, subscriptionId, p, now);
    }
    handled := outcome.Ok?;
  }
}
