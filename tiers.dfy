/** Subscription tiers, their quotas and the Stripe price ids that select them. */
module Tiers {
  import opened Wrappers

  datatype Tier = Free | Pro | Enterprise

  /** A tier's quotas; `None` is unlimited. */
  datatype TierLimits = TierLimits(maxClients: Option<nat>, maxInvoicesPerMonth: Option<nat>)

  /** The quota table: Free 3 clients and 5 invoices a month, Pro 10 and 30,
      Enterprise unlimited. */
  function LimitsOf(tier: Tier): (l: TierLimits)
    ensures l.maxClients.None? <==> tier == Enterprise
    ensures l.maxInvoicesPerMonth.None? <==> tier == Enterprise
  {
    match tier
    case Free => TierLimits(Some(3), Some(5))
    case Pro => TierLimits(Some(10), Some(30))
    case Enterprise => TierLimits(None, None)
  }

  const FreePriceId: string := "price_1SvAk6EMn0GAl3txfP0xBzTl"
  const ProPriceId: string := "price_1SvAkwEMn0GAl3tx66ZKYLnM"
  const EnterprisePriceId: string := "price_1SwqX0EMn0GAl3tx4WhwJuqi"

  /** The Stripe price ids the application recognises. */
  const PriceIdToTier: map<string, Tier> :=
    map[FreePriceId := Free, ProPriceId := Pro, EnterprisePriceId := Enterprise]

  /** The tier a subscription's price id selects: a missing or empty id, or an id not in
      the table, selects Free. */
  function TierFromPriceId(priceId: Option<string>): Tier {
    match priceId
    case None => Free
    case Some(p) => if p == "" then Free else if p in PriceIdToTier then PriceIdToTier[p] else Free
  }

  /** Only the Pro price id selects Pro and only the Enterprise price id selects
      Enterprise; every other value, null included, selects Free. */
  lemma TierFromPriceIdCharacterized(priceId: Option<string>)
    ensures TierFromPriceId(priceId) == Pro <==> priceId == Some(ProPriceId)
    ensures TierFromPriceId(priceId) == Enterprise <==> priceId == Some(EnterprisePriceId)
    ensures TierFromPriceId(priceId) == Free <==>
      priceId != Some(ProPriceId) && priceId != Some(EnterprisePriceId)
  {
    assert ProPriceId[11] != FreePriceId[11];
    assert EnterprisePriceId[8] != FreePriceId[8];
    assert ProPriceId[8] != EnterprisePriceId[8];
  }

  /** The name shown to users for each tier. */
  function DisplayName(tier: Tier): (name: string)
    ensures name == "Free" || name == "Pro" || name == "Enterprise"
  {
    match tier
    case Free => "Free"
    case Pro => "Pro"
    case Enterprise => "Enterprise"
  }

  /** Different tiers are shown under different names. */
  lemma DisplayNameInjective(a: Tier, b: Tier)
    requires DisplayName(a) == DisplayName(b)
    ensures a == b
  {
  }

  /** The rank of a tier. The comparison the application imports as `hasAccessToTier`
      is not part of this model; where a property needs it, it is ASSUMED to compare
      these ranks, free < pro < enterprise. */
  function Level(tier: Tier): nat {
    match tier
    case Free => 0
    case Pro => 1
    case Enterprise => 2
  }

  /** The assumed `hasAccessToTier`: a user's tier reaches every tier ranked at or
      below it. */
  predicate LevelAccess(userTier: Tier, requiredTier: Tier) {
    Level(userTier) >= Level(requiredTier)
  }

  /** A quota is at least another when it is unlimited or both are limited and larger. */
  predicate QuotaAtLeast(big: Option<nat>, small: Option<nat>) {
    big.None? || (small.Some? && small.value <= big.value)
  }

  /** A higher tier never has a smaller quota than a lower one. */
  lemma LimitsGrowWithLevel(a: Tier, b: Tier)
    requires Level(a) <= Level(b)
    ensures QuotaAtLeast(LimitsOf(b).maxClients, LimitsOf(a).maxClients)
    ensures QuotaAtLeast(LimitsOf(b).maxInvoicesPerMonth, LimitsOf(a).maxInvoicesPerMonth)
  {
  }
}
