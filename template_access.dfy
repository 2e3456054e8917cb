/** Which invoice templates each tier may use. */
module TemplateAccess {
  import opened Tiers

  /** The minimum tier of each template: default and classic are free, simple needs Pro,
      modern, professional and creative need Enterprise. */
  const TemplateTiers: map<string, Tier> := map[
    "default" := Free, "classic" := Free, "simple" := Pro,
    "modern" := Enterprise, "professional" := Enterprise, "creative" := Enterprise]

  /** Whether a user of `userTier` may use template `templateId`; an id missing from the
      table is never available. `hasAccessToTier` is the tier comparison the application
      imports, which is not part of this model. */
  function IsTemplateAvailable(userTier: Tier, templateId: string,
                               hasAccessToTier: (Tier, Tier) -> bool): bool
  {
    if templateId in TemplateTiers then hasAccessToTier(userTier, TemplateTiers[templateId])
    else false
  }

  /** The minimum tier of a template; a missing id falls back to Free. */
  function TemplateTier(templateId: string): (t: Tier)
    ensures templateId in TemplateTiers ==> t == TemplateTiers[templateId]
    ensures templateId !in TemplateTiers ==> t == Free
  {
    if templateId in TemplateTiers then TemplateTiers[templateId] else Free
  }

  /** For a known template, availability is the comparison with its `TemplateTier`. */
  lemma AvailableIffReachesTemplateTier(userTier: Tier, templateId: string,
                                        hasAccessToTier: (Tier, Tier) -> bool)
    requires templateId in TemplateTiers
    ensures IsTemplateAvailable(userTier, templateId, hasAccessToTier)
      == hasAccessToTier(userTier, TemplateTier(templateId))
  {
  }

  /** For an unknown id the two functions part ways: `TemplateTier` reports Free, yet the
      template is unavailable to every tier, whatever the comparison says. */
  lemma UnknownTemplateUnavailable(userTier: Tier, templateId: string,
                                   hasAccessToTier: (Tier, Tier) -> bool)
    requires templateId !in TemplateTiers
    ensures !IsTemplateAvailable(userTier, templateId, hasAccessToTier)
    ensures TemplateTier(templateId) == Free
  {
  }

  /** Under the assumed rank comparison, Free users get exactly default and classic,
      Pro users those and simple, and Enterprise users every template in the table. */
  lemma TemplatesByTier(templateId: string)
    ensures IsTemplateAvailable(Free, templateId, LevelAccess)
      <==> templateId == "default" || templateId == "classic"
    ensures IsTemplateAvailable(Pro, templateId, LevelAccess)
      <==> templateId == "default" || templateId == "classic" || templateId == "simple"
    ensures IsTemplateAvailable(Enterprise, templateId, LevelAccess)
      <==> templateId in TemplateTiers
  {
  }

  /** Under the assumed rank comparison, upgrading never takes a template away. */
  lemma AvailabilityGrowsWithLevel(a: Tier, b: Tier, templateId: string)
    requires Level(a) <= Level(b)
    requires IsTemplateAvailable(a, templateId, LevelAccess)
    ensures IsTemplateAvailable(b, templateId, LevelAccess)
  {
  }
}
