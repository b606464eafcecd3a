/** The entitlement gate in front of every handler of the AI controller. */
module Entitlement {

  /** The only plan name the gate treats as paid. */
  const PremiumPlan: string := "premium"

  /** Number of metered requests a non-premium user may make. */
  const FreeLimit: int := 10

  const LimitMessage: string := "Limit reached. Upgrade to continue."
  const ImagePremiumMessage: string := "This feature is only available for premium subscriptions"
  const PremiumOnlyMessage: string := "Premium feature only"

  /** `plan === "premium"`; any other plan string, including a missing one, is not premium. */
  predicate IsPremium(plan: string)
  {
    plan == PremiumPlan
  }

  /** The gate of the article and blog-title handlers:
      `plan !== "premium" && free_usage >= 10`. */
  predicate MeteredRejects(plan: string, freeUsage: int)
  {
    !IsPremium(plan) && freeUsage >= FreeLimit
  }

  /** The gate of the image, background-removal, object-removal and
      resume-review handlers: `plan !== "premium"`. */
  predicate PremiumOnlyRejects(plan: string)
  {
    !IsPremium(plan)
  }
}
