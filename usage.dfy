/** The entitlement gates: a user's effective tier and whether the tier's quotas let the
    user add a client or an invoice. The counts are inputs: the active-client count comes
    from a query that is not part of this model, the monthly invoice count from
    `InvoiceQueries.MonthlyInvoiceCount`. */
module Usage {
  import opened Wrappers
  import opened Text
  import opened Numbers
  import opened Tiers
  import opened SubscriptionsSchema

  /** A gate's answer; a denial carries the reason shown to the user. */
  datatype Decision = Decision(allowed: bool, reason: Option<string>)

  /** The tier a user's subscription row grants: only an active or trialing
      subscription counts, through its price id; no row, or any other status, is Free. */
  function UserTier(subscription: Option<SubscriptionRow>): (t: Tier)
    ensures subscription.None? ==> t == Free
    ensures subscription.Some? && !(subscription.value.status in {Active, Trialing}) ==> t == Free
    ensures subscription.Some? && subscription.value.status in {Active, Trialing} ==>
      t == TierFromPriceId(subscription.value.stripePriceId)
  {
    match subscription
    case None => Free
    case Some(s) =>
      if s.status != Active && s.status != Trialing then Free
      else TierFromPriceId(s.stripePriceId)
  }

  function ClientLimitReason(limit: nat, tierName: string): string {
    "You've reached the maximum of " + NatToString(limit) + " clients on the "
    + tierName + " plan. Upgrade to add more active clients."
  }

  function InvoiceLimitReason(count: nat, limit: nat, tierName: string): string {
    "You've reached your monthly invoice limit (" + NatToString(count) + "/"
    + NatToString(limit) + ") on the " + tierName + " plan. Upgrade for more invoices."
  }

  /** The client gate: allowed exactly when the tier has no client quota or the
      active-client count is below it; a denial names the quota and the tier. */
  function CanCreateClient(subscription: Option<SubscriptionRow>, activeClientCount: nat): (d: Decision)
    ensures d.allowed <==> (LimitsOf(UserTier(subscription)).maxClients.None? ||
                            activeClientCount < LimitsOf(UserTier(subscription)).maxClients.value)
    ensures d.allowed <==> d.reason.None?
    ensures !d.allowed ==> d.reason == Some(ClientLimitReason(
      LimitsOf(UserTier(subscription)).maxClients.value, DisplayName(UserTier(subscription))))
  {
    var tier := UserTier(subscription);
    var limits := LimitsOf(tier);
    if limits.maxClients.None? then Decision(true, None)
    else if activeClientCount >= limits.maxClients.value then
      Decision(false, Some(ClientLimitReason(limits.maxClients.value, DisplayName(tier))))
    else Decision(true, None)
  }

  /** The invoice gate: allowed exactly when the tier has no monthly quota or this
      month's count is below it; a denial shows "count/limit" and the tier. */
  function CanCreateInvoice(subscription: Option<SubscriptionRow>, monthlyCount: nat): (d: Decision)
    ensures d.allowed <==> (LimitsOf(UserTier(subscription)).maxInvoicesPerMonth.None? ||
                            monthlyCount < LimitsOf(UserTier(subscription)).maxInvoicesPerMonth.value)
    ensures d.allowed <==> d.reason.None?
    ensures !d.allowed ==> d.reason == Some(InvoiceLimitReason(monthlyCount,
      LimitsOf(UserTier(subscription)).maxInvoicesPerMonth.value, DisplayName(UserTier(subscription))))
  {
    var tier := UserTier(subscription);
    var limits := LimitsOf(tier);
    if limits.maxInvoicesPerMonth.None? then Decision(true, None)
    else if monthlyCount >= limits.maxInvoicesPerMonth.value then
      Decision(false, Some(InvoiceLimitReason(monthlyCount, limits.maxInvoicesPerMonth.value,
                                              DisplayName(tier))))
    else Decision(true, None)
  }

  /** The client denial mentions the quota and the tier's name. */
  lemma ClientReasonMentionsLimitAndTier(limit: nat, tier: Tier)
    ensures Contains(ClientLimitReason(limit, DisplayName(tier)), NatToString(limit))
    ensures Contains(ClientLimitReason(limit, DisplayName(tier)), DisplayName(tier))
  {
    ContainsInnerPieces("You've reached the maximum of ", NatToString(limit), " clients on the ",
                        DisplayName(tier), " plan. Upgrade to add more active clients.");
  }

  /** The invoice denial mentions "count/limit" and the tier's name. */
  lemma InvoiceReasonMentionsUsageAndTier(count: nat, limit: nat, tier: Tier)
    ensures Contains(InvoiceLimitReason(count, limit, DisplayName(tier)),
                     NatToString(count) + "/" + NatToString(limit))
    ensures Contains(InvoiceLimitReason(count, limit, DisplayName(tier)), DisplayName(tier))
  {
    ContainsSpan("You've reached your monthly invoice limit (", NatToString(count), "/", NatToString(limit),
                 ") on the ", DisplayName(tier), " plan. Upgrade for more invoices.");
  }

  /** For a tier without quotas both gates allow, whatever the counts. */
  lemma UnlimitedIgnoresCounts(subscription: Option<SubscriptionRow>, c1: nat, c2: nat)
    requires UserTier(subscription) == Enterprise
    ensures CanCreateClient(subscription, c1) == CanCreateClient(subscription, c2) == Decision(true, None)
    ensures CanCreateInvoice(subscription, c1) == CanCreateInvoice(subscription, c2) == Decision(true, None)
  {
  }

  /** The usage summary shown on the billing page. */
  datatype UsageStats = UsageStats(
    tier: Tier,
    tierDisplayName: string,
    limits: TierLimits,
    clients: nat,
    invoicesThisMonth: nat,
    canCreateClient: bool,
    canCreateInvoice: bool)

  function GetUsageStats(subscription: Option<SubscriptionRow>, clientCount: nat, invoiceCount: nat): (u: UsageStats)
    ensures u.tier == UserTier(subscription) && u.limits == LimitsOf(u.tier)
    ensures u.tierDisplayName == DisplayName(u.tier)
    ensures u.clients == clientCount && u.invoicesThisMonth == invoiceCount
  {
    var tier := UserTier(subscription);
    var limits := LimitsOf(tier);
    UsageStats(tier, DisplayName(tier), limits, clientCount, invoiceCount,
      limits.maxClients.None? || clientCount < limits.maxClients.value,
      limits.maxInvoicesPerMonth.None? || invoiceCount < limits.maxInvoicesPerMonth.value)
  }

  /** The summary's two flags agree with the two gates for the same counts. */
  lemma UsageStatsAgreeWithGates(subscription: Option<SubscriptionRow>, clientCount: nat, invoiceCount: nat)
    ensures GetUsageStats(subscription, clientCount, invoiceCount).canCreateClient
      == CanCreateClient(subscription, clientCount).allowed
    ensures GetUsageStats(subscription, clientCount, invoiceCount).canCreateInvoice
      == CanCreateInvoice(subscription, invoiceCount).allowed
  {
  }
}
