/** `getBundleStartDateWithSanity`: the start date of the bundle a new
    subscription joins, decided by the plan's category and the bundle's base
    subscription, or the reason the subscription cannot join. */
module BundleStart {
  import opened Outcomes
  import opened Catalog

  /** A base subscription that blocks a second base plan. */
  predicate IsLive(base: BaseSubscription)
  {
    base.state == Active || base.state == Pending
  }

  /** `rightsOk` is the verdict of the catalog's add-on creation-rights check,
      consulted only for an add-on whose requested date is not before the base. */
  function BundleStartDate(category: Category, base: Option<BaseSubscription>, effective: Instant, rightsOk: bool)
    : (r: Result<Instant>)
    ensures r == Err(BasePlanExists) <==>
              (category == Base && base.Some? && IsLive(base.value)) || (category == Standalone && base.Some?)
    ensures r == Err(NoBasePlan) <==> category == AddOn && base.None?
    ensures r == Err(InvalidRequestedDate) <==> category == AddOn && base.Some? && effective < base.value.startDate
    ensures r == Err(AddOnCreationRefused) <==>
              category == AddOn && base.Some? && effective >= base.value.startDate && !rightsOk
    // a base or standalone plan starts the bundle on the requested date
    ensures r.Ok? && category != AddOn ==> r.value == effective
    // an add-on joins the bundle at the base's start, which is never after the requested date
    ensures r.Ok? && category == AddOn ==> base.Some? && r.value == base.value.startDate && r.value <= effective
    ensures r.Err? ==> r.code in {BasePlanExists, NoBasePlan, InvalidRequestedDate, AddOnCreationRefused}
  {
    match category
    case Base =>
      if base.Some? && IsLive(base.value) then Err(BasePlanExists) else Ok(effective)
    case AddOn =>
      if base.None? then Err(NoBasePlan)
      else if effective < base.value.startDate then Err(InvalidRequestedDate)
      else if !rightsOk then Err(AddOnCreationRefused)
      else Ok(base.value.startDate)
    case Standalone =>
      if base.Some? then Err(BasePlanExists) else Ok(effective)
  }

  /** The decision table, row by row, read back as the outcome each row yields. */
  lemma DecisionTable(base: BaseSubscription, effective: Instant)
    ensures IsLive(base) ==> BundleStartDate(Base, Some(base), effective, true) == Err(BasePlanExists)
    ensures !IsLive(base) ==> BundleStartDate(Base, Some(base), effective, true) == Ok(effective)
    ensures BundleStartDate(Base, None, effective, true) == Ok(effective)
    ensures BundleStartDate(AddOn, None, effective, true) == Err(NoBasePlan)
    ensures effective < base.startDate ==> BundleStartDate(AddOn, Some(base), effective, true) == Err(InvalidRequestedDate)
    ensures effective >= base.startDate ==> BundleStartDate(AddOn, Some(base), effective, true) == Ok(base.startDate)
    ensures BundleStartDate(Standalone, Some(base), effective, true) == Err(BasePlanExists)
    ensures BundleStartDate(Standalone, None, effective, true) == Ok(effective)
  {
  }

  /** A cancelled base plan does not block a new base plan, but it does block a
      standalone plan. */
  lemma CancelledBaseBlocksOnlyStandalone(start: Instant, effective: Instant)
    ensures BundleStartDate(Base, Some(BaseSubscription(Cancelled, start)), effective, true).Ok?
    ensures BundleStartDate(Standalone, Some(BaseSubscription(Cancelled, start)), effective, true).Err?
  {
  }
}
