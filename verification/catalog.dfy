/** What the subscription core reads from the catalog and from stored
    subscriptions, reduced to the fields its decisions depend on. */
module Catalog {

  /** `ProductCategory`. */
  datatype Category = Base | AddOn | Standalone

  /** `EntitlementState` of a stored subscription. */
  datatype EntitlementState = Active | Pending | Blocked | Cancelled

  /** A point in time (a UTC DateTime), ordered like `isBefore`. */
  type Instant = int

  /** An entitlement specifier after the catalog has resolved it to a plan: the
      plan's name, its product category and `getPlansAllowedInBundle()` (-1 means
      unlimited). */
  datatype PlanSpec = PlanSpec(planName: string, category: Category, plansAllowedInBundle: int)

  /** The base subscription of a bundle as the start-date rules see it. */
  datatype BaseSubscription = BaseSubscription(state: EntitlementState, startDate: Instant)
}
