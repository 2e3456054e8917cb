/** The `subscriptions` table. */
module SubscriptionsSchema {
  import opened Wrappers

  /** The `subscription_status` enum; new rows are incomplete. */
  datatype SubscriptionStatus =
    Trialing | Active | Canceled | Incomplete | IncompleteExpired | PastDue | Unpaid | Paused

  const DefaultSubscriptionStatus: SubscriptionStatus := Incomplete

  /** The enum's label for each status. */
  function StatusLabel(s: SubscriptionStatus): string {
    match s
    case Trialing => "trialing"
    case Active => "active"
    case Canceled => "canceled"
    case Incomplete => "incomplete"
    case IncompleteExpired => "incomplete_expired"
    case PastDue => "past_due"
    case Unpaid => "unpaid"
    case Paused => "paused"
  }

  /** Enum input: the status a label names; any other text is refused (`None`). */
  function StatusFromLabel(t: string): (r: Option<SubscriptionStatus>)
    ensures r.Some? ==> StatusLabel(r.value) == t
  {
    if t == "trialing" then Some(Trialing)
    else if t == "active" then Some(Active)
    else if t == "canceled" then Some(Canceled)
    else if t == "incomplete" then Some(Incomplete)
    else if t == "incomplete_expired" then Some(IncompleteExpired)
    else if t == "past_due" then Some(PastDue)
    else if t == "unpaid" then Some(Unpaid)
    else if t == "paused" then Some(Paused)
    else None
  }

  /** Every status is accepted back from its own label. */
  lemma StatusLabelRoundTrip(s: SubscriptionStatus)
    ensures StatusFromLabel(StatusLabel(s)) == Some(s)
  {
  }

  /** One row. `userId` references a profile and is unique (one subscription per user),
      `stripeCustomerId` is required and unique, `stripeSubscriptionId` is unique when
      present; cancelAtPeriodEnd defaults to false. Timestamps are milliseconds. */
  datatype SubscriptionRow = SubscriptionRow(
    id: nat,
    userId: nat,
    stripeCustomerId: string,
    stripeSubscriptionId: Option<string>,
    stripePriceId: Option<string>,
    status: SubscriptionStatus,
    currentPeriodStart: Option<int>,
    currentPeriodEnd: Option<int>,
    cancelAtPeriodEnd: bool,
    createdAt: int,
    updatedAt: int)
}
