/** The creation path of `createBaseSubscriptionsWithAddOns` for one bundle
    request: reorder the specifiers, find or decide to create the bundle, clamp
    the billing date to the base subscription's start, then check every
    specifier and build the subscription it describes. */
module Creation {
  import opened Outcomes
  import opened Catalog
  import opened SpecifierOrder
  import opened AddOnLimit
  import opened BundleStart

  /** A stored bundle. */
  datatype Bundle = Bundle(id: nat, accountId: nat, externalKey: string)

  /** The stored state the creation path reads, as total lookup functions. */
  datatype Store = Store(
    bundleById: nat -> Option<Bundle>,                  // dao.getSubscriptionBundleFromId
    activeBundleByKey: string -> Option<Bundle>,         // getActiveBundleForKey
    baseSubscriptionOf: nat -> Option<BaseSubscription>, // dao.getBaseSubscription
    existingAddOns: (nat, string) -> nat,                // addonUtils.countExistingAddOnsWithSamePlanName
    addOnRightsOk: (BaseSubscription, PlanSpec) -> bool) // addonUtils.checkAddonCreationRights passes

  /** What becomes of a subscription specifier: its plan, the bundle's start date
      and the subscription's own alignment start date. */
  datatype SubscriptionDraft = SubscriptionDraft(plan: PlanSpec, bundleStartDate: Instant, alignStartDate: Instant)

  /** Checks and builds one specifier of a (reordered) batch: the add-on cap
      first, then, when the batch does not establish a base or standalone plan,
      the bundle start-date rules against the bundle's base subscription. */
  function BuildOne(spec: PlanSpec, batch: seq<PlanSpec>, hasBaseOrStandalone: bool,
                    existingAddOns: string -> nat, base: Option<BaseSubscription>,
                    rightsOk: (BaseSubscription, PlanSpec) -> bool, effective: Instant)
    : (r: Result<SubscriptionDraft>)
    ensures CheckCreationCap(spec, existingAddOns(spec.planName), batch).Fail? ==>
              r == Err(AddOnMaxPlanAllowedByBundle(spec.planName))
    // past the cap, a batch with a base or standalone plan builds every specifier
    ensures CheckCreationCap(spec, existingAddOns(spec.planName), batch).Pass? && hasBaseOrStandalone ==>
              r == Ok(SubscriptionDraft(spec, effective, effective))
    // past the cap, an add-on batch succeeds or fails exactly as the start-date table says
    ensures CheckCreationCap(spec, existingAddOns(spec.planName), batch).Pass? && !hasBaseOrStandalone ==>
              var start := BundleStartDate(spec.category, base, effective, base.Some? && rightsOk(base.value, spec));
              (r.Ok? <==> start.Ok?)
              && (r.Err? ==> r.code == start.code)
              && (r.Ok? ==> r.value.bundleStartDate == start.value)
    ensures r.Ok? ==> r.value.plan == spec && r.value.alignStartDate == effective
    ensures r.Ok? && hasBaseOrStandalone ==> r.value.bundleStartDate == effective
    ensures r.Ok? && !hasBaseOrStandalone && spec.category == AddOn ==>
              base.Some? && r.value.bundleStartDate == base.value.startDate
    ensures r.Err? && r.code == InvalidRequestedDate ==>
              !hasBaseOrStandalone && spec.category == AddOn && base.Some? && effective < base.value.startDate
  {
    var cap := CheckCreationCap(spec, existingAddOns(spec.planName), batch);
    if cap.Fail? then Err(cap.error)
    else if hasBaseOrStandalone then Ok(SubscriptionDraft(spec, effective, effective))
    else
      var start := BundleStartDate(spec.category, base, effective, base.Some? && rightsOk(base.value, spec));
      if start.Err? then Err(start.code) else Ok(SubscriptionDraft(spec, start.value, effective))
  }

  /** `verifyAndBuildSubscriptionSpecifiers`: the first specifier that fails
      decides the error; otherwise every specifier yields its draft, in order. */
  method VerifyAndBuild(batch: seq<PlanSpec>, hasBaseOrStandalone: bool,
                        existingAddOns: string -> nat, base: Option<BaseSubscription>,
                        rightsOk: (BaseSubscription, PlanSpec) -> bool, effective: Instant)
    returns (r: Result<seq<SubscriptionDraft>>)
    ensures r.Ok? <==> forall i :: 0 <= i < |batch| ==>
                         BuildOne(batch[i], batch, hasBaseOrStandalone, existingAddOns, base, rightsOk, effective).Ok?
    ensures r.Ok? ==> |r.value| == |batch|
    ensures r.Ok? ==> forall i :: 0 <= i < |batch| ==>
                        Ok(r.value[i]) == BuildOne(batch[i], batch, hasBaseOrStandalone, existingAddOns, base, rightsOk, effective)
    ensures r.Err? ==> exists i :: 0 <= i < |batch|
                        && BuildOne(batch[i], batch, hasBaseOrStandalone, existingAddOns, base, rightsOk, effective) == Err(r.code)
                        && forall j :: 0 <= j < i ==>
                             BuildOne(batch[j], batch, hasBaseOrStandalone, existingAddOns, base, rightsOk, effective).Ok?
  {
    var drafts: seq<SubscriptionDraft> := [];
    var i := 0;
    while i < |batch|
      invariant 0 <= i <= |batch|
      invariant |drafts| == i
      invariant forall j :: 0 <= j < i ==>
                  Ok(drafts[j]) == BuildOne(batch[j], batch, hasBaseOrStandalone, existingAddOns, base, rightsOk, effective)
    {
      var one := BuildOne(batch[i], batch, hasBaseOrStandalone, existingAddOns, base, rightsOk, effective);
      if one.Err? {
        return Err(one.code);
      }
      drafts := drafts + [one.value];
      i := i + 1;
    }
    return Ok(drafts);
  }

  /** Which bundle the request goes to: an existing one, or a new one to create
      under the given external key. */
  datatype BundleChoice = Existing(bundle: Bundle) | CreateNew(externalKey: Option<string>)

  /** The chosen bundle and the billing date the request is built with. */
  datatype Resolution = Resolution(choice: BundleChoice, billingDate: Instant)

  const MaxExternalKeyLength := 255

  /** The bundle branch of `createBaseSubscriptionsWithAddOns` together with the
      external-key guard of `createBundleForAccount`. `rawDate` is the requested
      billing date, or the call's creation time when none was given. */
  function ResolveBundle(bundleId: Option<nat>, externalKey: Option<string>, hasBaseOrStandalone: bool,
                         accountId: nat, store: Store, rawDate: Instant)
    : (r: Result<Resolution>)
    ensures r.Err? ==> r.code in {InvalidEntitlementSpecifier, NoBasePlan, ActiveBundleKeyExists,
                                  ExternalKeyLimitExceeded, BasePlanExists}
    // add-ons with neither a bundle id nor a key have no bundle to join
    ensures bundleId.None? && externalKey.None? && !hasBaseOrStandalone ==> r == Err(InvalidEntitlementSpecifier)
    // the bundle chosen is the one the id names, else the active bundle of the key
    ensures r.Ok? && bundleId.Some? ==>
              r.value.choice.Existing? && store.bundleById(bundleId.value) == Some(r.value.choice.bundle)
    ensures r.Ok? && bundleId.None? && !hasBaseOrStandalone ==>
              externalKey.Some? && r.value.choice.Existing?
              && store.activeBundleByKey(externalKey.value) == Some(r.value.choice.bundle)
              && r.value.choice.bundle.accountId == accountId
    // a base or standalone plan is refused for a bundle named by id that already has a base subscription
    ensures r == Err(BasePlanExists) <==>
              hasBaseOrStandalone && bundleId.Some? && store.bundleById(bundleId.value).Some?
              && (externalKey.Some? ==> externalKey.value == store.bundleById(bundleId.value).value.externalKey)
              && store.baseSubscriptionOf(store.bundleById(bundleId.value).value.id).Some?
    // a bundle named by id (and matching key) is used unless it would receive a second base plan
    ensures bundleId.Some? && store.bundleById(bundleId.value).Some?
            && (externalKey.Some? ==> externalKey.value == store.bundleById(bundleId.value).value.externalKey)
            && !(hasBaseOrStandalone && store.baseSubscriptionOf(store.bundleById(bundleId.value).value.id).Some?)
            ==> r.Ok?
    // add-ons given by the key of this account's active bundle join it
    ensures bundleId.None? && externalKey.Some? && !hasBaseOrStandalone
            && store.activeBundleByKey(externalKey.value).Some?
            && store.activeBundleByKey(externalKey.value).value.accountId == accountId
            ==> r.Ok?
    // an explicit bundle id must exist and agree with an explicit key
    ensures bundleId.Some? && store.bundleById(bundleId.value).None? ==> r == Err(InvalidEntitlementSpecifier)
    ensures bundleId.Some? && store.bundleById(bundleId.value).Some? && externalKey.Some?
            && externalKey.value != store.bundleById(bundleId.value).value.externalKey
            ==> r == Err(InvalidEntitlementSpecifier)
    // add-ons given by key need an active bundle of this account
    ensures bundleId.None? && externalKey.Some? && !hasBaseOrStandalone
            && store.activeBundleByKey(externalKey.value).None?
            ==> r == Err(NoBasePlan)
    ensures bundleId.None? && externalKey.Some? && !hasBaseOrStandalone
            && store.activeBundleByKey(externalKey.value).Some?
            && store.activeBundleByKey(externalKey.value).value.accountId != accountId
            ==> r == Err(ActiveBundleKeyExists)
    // a base or standalone plan without a bundle id always gets a new bundle, unless its key is too long
    ensures bundleId.None? && hasBaseOrStandalone ==>
              if externalKey.Some? && |externalKey.value| > MaxExternalKeyLength
              then r == Err(ExternalKeyLimitExceeded)
              else r == Ok(Resolution(CreateNew(externalKey), rawDate))
    ensures r == Err(ExternalKeyLimitExceeded) ==>
              hasBaseOrStandalone && externalKey.Some? && |externalKey.value| > MaxExternalKeyLength
    // add-ons alone never create a bundle
    ensures r.Ok? && !hasBaseOrStandalone ==> r.value.choice.Existing?
    // a bundle that has a base subscription never receives another base or standalone plan
    ensures r.Ok? && r.value.choice.Existing? && hasBaseOrStandalone ==>
              store.baseSubscriptionOf(r.value.choice.bundle.id).None?
    // the billing date is the requested one, moved up to the base subscription's start
    ensures r.Ok? ==> r.value.billingDate >= rawDate
    ensures r.Ok? && r.value.choice.Existing? && store.baseSubscriptionOf(r.value.choice.bundle.id).Some? ==>
              var start := store.baseSubscriptionOf(r.value.choice.bundle.id).value.startDate;
              r.value.billingDate >= start && (r.value.billingDate == rawDate || r.value.billingDate == start)
    ensures r.Ok? && (r.value.choice.CreateNew? || store.baseSubscriptionOf(r.value.choice.bundle.id).None?) ==>
              r.value.billingDate == rawDate
  {
    var found: Result<Option<Bundle>> :=
      if bundleId.Some? then
        var b := store.bundleById(bundleId.value);
        if b.None? || (externalKey.Some? && externalKey.value != b.value.externalKey)
        then Err(InvalidEntitlementSpecifier) else Ok(b)
      else if externalKey.Some? && !hasBaseOrStandalone then
        var b := store.activeBundleByKey(externalKey.value);
        if b.None? then Err(NoBasePlan)
        else if b.value.accountId != accountId then Err(ActiveBundleKeyExists)
        else Ok(b)
      else Ok(None);
    if found.Err? then Err(found.code)
    else
      var bundle := found.value;
      var base := if bundle.Some? then store.baseSubscriptionOf(bundle.value.id) else None;
      var billingDate := if base.Some? && rawDate < base.value.startDate then base.value.startDate else rawDate;
      if bundle.None? && hasBaseOrStandalone then
        if externalKey.Some? && |externalKey.value| > MaxExternalKeyLength then Err(ExternalKeyLimitExceeded)
        else Ok(Resolution(CreateNew(externalKey), billingDate))
      else if bundle.Some? && base.Some? && hasBaseOrStandalone then Err(BasePlanExists)
      else if bundle.None? then Err(InvalidEntitlementSpecifier)
      else Ok(Resolution(Existing(bundle.value), billingDate))
  }

  /** Once the billing date is no earlier than the base subscription's start, no
      specifier is refused for a requested date before it. */
  lemma ClampedDateIsNeverTooEarly(spec: PlanSpec, batch: seq<PlanSpec>, hasBaseOrStandalone: bool,
                                   existingAddOns: string -> nat, base: Option<BaseSubscription>,
                                   rightsOk: (BaseSubscription, PlanSpec) -> bool, effective: Instant)
    requires base.Some? ==> effective >= base.value.startDate
    ensures BuildOne(spec, batch, hasBaseOrStandalone, existingAddOns, base, rightsOk, effective) != Err(InvalidRequestedDate)
  {
  }

  /** The base subscription of the chosen bundle; a bundle about to be created has none. */
  function BaseOf(choice: BundleChoice, store: Store): Option<BaseSubscription>
  {
    if choice.Existing? then store.baseSubscriptionOf(choice.bundle.id) else None
  }

  /** The add-ons of each plan already in the chosen bundle; a new bundle has none. */
  function ExistingAddOnsOf(choice: BundleChoice, store: Store): string -> nat
  {
    if choice.Existing? then (name: string) => store.existingAddOns(choice.bundle.id, name)
    else (name: string) => 0
  }

  /** The billing date a request is resolved to is never before the start of the
      chosen bundle's base subscription. */
  lemma BillingDateNotBeforeBase(bundleId: Option<nat>, externalKey: Option<string>, hasBaseOrStandalone: bool,
                                 accountId: nat, store: Store, rawDate: Instant)
    requires ResolveBundle(bundleId, externalKey, hasBaseOrStandalone, accountId, store, rawDate).Ok?
    ensures var res := ResolveBundle(bundleId, externalKey, hasBaseOrStandalone, accountId, store, rawDate).value;
            BaseOf(res.choice, store).Some? ==> res.billingDate >= BaseOf(res.choice, store).value.startDate
  {
  }

  /** The plans of a sequence of drafts, in order. */
  function PlansOf(drafts: seq<SubscriptionDraft>): seq<PlanSpec>
  {
    seq(|drafts|, i requires 0 <= i < |drafts| => drafts[i].plan)
  }

  /** One specifier checked and built against the chosen bundle, with the
      resolved billing date as its effective date. */
  function BuildFor(spec: PlanSpec, specs: seq<PlanSpec>, hasBaseOrStandalone: bool, res: Resolution, store: Store)
    : Result<SubscriptionDraft>
  {
    BuildOne(spec, specs, hasBaseOrStandalone, ExistingAddOnsOf(res.choice, store), BaseOf(res.choice, store),
             store.addOnRightsOk, res.billingDate)
  }

  /** Every specifier of the batch passes its checks against the chosen bundle. */
  predicate BuildsAll(specs: seq<PlanSpec>, hasBaseOrStandalone: bool, res: Resolution, store: Store)
  {
    forall i :: 0 <= i < |specs| ==> BuildFor(specs[i], specs, hasBaseOrStandalone, res, store).Ok?
  }

  /** Runs the specifier checks against the chosen bundle, with the resolved
      billing date as the effective date of every subscription. */
  method BuildForResolution(specs: seq<PlanSpec>, hasBaseOrStandalone: bool, res: Resolution, store: Store)
    returns (r: Result<seq<SubscriptionDraft>>)
    requires BaseOf(res.choice, store).Some? ==> res.billingDate >= BaseOf(res.choice, store).value.startDate
    ensures r.Ok? <==> BuildsAll(specs, hasBaseOrStandalone, res, store)
    // the error is that of the first specifier that fails, in batch order
    ensures r.Err? ==> exists i :: 0 <= i < |specs|
                        && BuildFor(specs[i], specs, hasBaseOrStandalone, res, store) == Err(r.code)
                        && forall j :: 0 <= j < i ==> BuildFor(specs[j], specs, hasBaseOrStandalone, res, store).Ok?
    ensures r.Err? ==> r.code != InvalidRequestedDate
    // each draft is exactly what its specifier builds against the chosen bundle
    ensures r.Ok? ==> |r.value| == |specs|
                      && forall i :: 0 <= i < |specs| ==> Ok(r.value[i]) == BuildFor(specs[i], specs, hasBaseOrStandalone, res, store)
    ensures r.Ok? ==> PlansOf(r.value) == specs
    ensures r.Ok? ==> forall d :: d in r.value ==> d.alignStartDate == res.billingDate
    ensures r.Ok? && hasBaseOrStandalone ==> forall d :: d in r.value ==> d.bundleStartDate == res.billingDate
  {
    var base := BaseOf(res.choice, store);
    r := VerifyAndBuild(specs, hasBaseOrStandalone, ExistingAddOnsOf(res.choice, store), base,
                        store.addOnRightsOk, res.billingDate);
    if r.Err? {
      ghost var i :| 0 <= i < |specs|
        && BuildOne(specs[i], specs, hasBaseOrStandalone, ExistingAddOnsOf(res.choice, store), base,
                    store.addOnRightsOk, res.billingDate) == Err(r.code);
      ClampedDateIsNeverTooEarly(specs[i], specs, hasBaseOrStandalone, ExistingAddOnsOf(res.choice, store), base,
                                 store.addOnRightsOk, res.billingDate);
    } else {
      assert PlansOf(r.value) == specs;
    }
  }

  /** A bundle request: an optional bundle id and external key, an optional
      billing date, and the resolved plans of its entitlement specifiers. */
  datatype BundleRequest = BundleRequest(bundleId: Option<nat>, externalKey: Option<string>,
                                         billingDate: Option<Instant>, specs: seq<PlanSpec>)

  /** The requested billing date, or the call's creation time when none was given. */
  function RawDate(req: BundleRequest, createdDate: Instant): Instant
  {
    if req.billingDate.Some? then req.billingDate.value else createdDate
  }

  /** Where the request goes, once its batch is known to be well formed. */
  function ResolutionOf(req: BundleRequest, accountId: nat, createdDate: Instant, store: Store): Result<Resolution>
  {
    ResolveBundle(req.bundleId, req.externalKey, EstablishesBundle(req.specs), accountId, store, RawDate(req, createdDate))
  }

  /** A bundle request goes through: the batch is well formed, a bundle is found
      or may be created for it, and every reordered specifier passes its checks. */
  predicate Accepted(req: BundleRequest, accountId: nat, createdDate: Instant, store: Store)
  {
    !InvalidBatch(req.specs)
    && ResolutionOf(req, accountId, createdDate, store).Ok?
    && BuildsAll(Reordering(req.specs), EstablishesBundle(req.specs), ResolutionOf(req, accountId, createdDate, store).value, store)
  }

  /** A batch without a base or standalone plan reorders to add-ons only. */
  lemma AddOnBatchReordersToAddOns(batch: seq<PlanSpec>)
    requires !EstablishesBundle(batch)
    ensures forall i :: 0 <= i < |Reordering(batch)| ==> Reordering(batch)[i].category == AddOn
  {
    OfCategoryMembers(batch, AddOn);
    assert Reordering(batch) == OfCategory(batch, AddOn);
  }

  /** One iteration of `createBaseSubscriptionsWithAddOns`. A bundle about to be
      created holds no subscriptions yet, so it has no base subscription and no
      existing add-ons. Because the billing date has been moved up to the base
      subscription's start, an add-on is never refused for a date before it. */
  method PrepareBundle(req: BundleRequest, accountId: nat, createdDate: Instant, store: Store)
    returns (r: Result<(Resolution, seq<SubscriptionDraft>)>)
    ensures r.Ok? <==> Accepted(req, accountId, createdDate, store)
    // the checks run in order: batch shape, then the bundle, then the specifiers
    ensures InvalidBatch(req.specs) ==> r == Err(InvalidEntitlementSpecifier)
    ensures !InvalidBatch(req.specs) && ResolutionOf(req, accountId, createdDate, store).Err? ==>
              r == Err(ResolutionOf(req, accountId, createdDate, store).code)
    ensures r.Ok? ==> r.value.0 == ResolutionOf(req, accountId, createdDate, store).value
    // past the bundle, the error is that of the first reordered specifier that fails
    ensures !InvalidBatch(req.specs) && ResolutionOf(req, accountId, createdDate, store).Ok? && r.Err? ==>
              var specs, res := Reordering(req.specs), ResolutionOf(req, accountId, createdDate, store).value;
              exists i :: 0 <= i < |specs|
                && BuildFor(specs[i], specs, EstablishesBundle(req.specs), res, store) == Err(r.code)
                && forall j :: 0 <= j < i ==> BuildFor(specs[j], specs, EstablishesBundle(req.specs), res, store).Ok?
    // the subscriptions are built in reordered order: base or standalone first
    ensures r.Ok? ==> PlansOf(r.value.1) == Reordering(req.specs)
    // each subscription is exactly what its reordered specifier builds against the chosen bundle
    ensures r.Ok? ==> |r.value.1| == |Reordering(req.specs)|
                      && forall i :: 0 <= i < |r.value.1| ==>
                           Ok(r.value.1[i]) == BuildFor(Reordering(req.specs)[i], Reordering(req.specs),
                                                        EstablishesBundle(req.specs), r.value.0, store)
    // a base or standalone batch starts the bundle on the billing date; add-ons join at the base's start
    ensures r.Ok? && EstablishesBundle(req.specs) ==>
              forall d :: d in r.value.1 ==> d.bundleStartDate == r.value.0.billingDate
    ensures r.Ok? && !EstablishesBundle(req.specs) ==>
              forall d :: d in r.value.1 ==>
                BaseOf(r.value.0.choice, store).Some? && d.bundleStartDate == BaseOf(r.value.0.choice, store).value.startDate
    ensures r.Err? ==> r.code != InvalidRequestedDate
    ensures r.Ok? ==> multiset(PlansOf(r.value.1)) == multiset(req.specs)
    ensures r.Ok? ==> forall d :: d in r.value.1 ==> d.alignStartDate == r.value.0.billingDate
    ensures r.Ok? && r.value.0.choice.CreateNew? ==>
              forall d :: d in r.value.1 ==> d.bundleStartDate == r.value.0.billingDate
  {
    var reordered := ReorderBaseOrStandaloneFirst(req.specs);
    if reordered.Err? {
      return Err(reordered.code);
    }
    var specs := reordered.value.specs;
    var hasBos := reordered.value.hasBaseOrStandalone;
    var rawDate := RawDate(req, createdDate);
    var resolution := ResolveBundle(req.bundleId, req.externalKey, hasBos, accountId, store, rawDate);
    if resolution.Err? {
      return Err(resolution.code);
    }
    var res := resolution.value;
    BillingDateNotBeforeBase(req.bundleId, req.externalKey, hasBos, accountId, store, rawDate);
    var drafts := BuildForResolution(specs, hasBos, res, store);
    if drafts.Err? {
      return Err(drafts.code);
    }
    OfCategorySum(req.specs);
    if !hasBos {
      AddOnBatchReordersToAddOns(req.specs);
    }
    return Ok((res, drafts.value));
  }

  /** A single base plan with no bundle id and a key of at most 255 characters is
      accepted and gets a new bundle, billed from the requested date (or now). */
  lemma SingleBasePlanAccepted(p: PlanSpec, key: Option<string>, billingDate: Option<Instant>,
                               accountId: nat, createdDate: Instant, store: Store)
    requires p.category == Base
    requires key.Some? ==> |key.value| <= MaxExternalKeyLength
    ensures var req := BundleRequest(None, key, billingDate, [p]);
            Accepted(req, accountId, createdDate, store)
            && ResolutionOf(req, accountId, createdDate, store) == Ok(Resolution(CreateNew(key), RawDate(req, createdDate)))
  {
    var req := BundleRequest(None, key, billingDate, [p]);
    assert [p][..0] == [];
    assert OfCategory([p], Base) == [p];
    assert OfCategory([p], AddOn) == OfCategory([], AddOn) == [];
    assert OfCategory([p], Standalone) == OfCategory([], Standalone) == [];
    assert Reordering([p]) == [p];
    var res := ResolutionOf(req, accountId, createdDate, store);
    assert BuildFor(p, [p], true, res.value, store).Ok?;
  }

  /** An add-on named by its bundle id joins that bundle when the base subscription
      admits it and the cap leaves room, even with a requested date before the base
      subscription's start: the billing date is moved up to that start. */
  lemma AddOnJoinsBundleById(a: PlanSpec, id: nat, billingDate: Option<Instant>,
                             accountId: nat, createdDate: Instant, store: Store)
    requires a.category == AddOn
    requires store.bundleById(id).Some?
    requires store.baseSubscriptionOf(store.bundleById(id).value.id).Some?
    requires store.addOnRightsOk(store.baseSubscriptionOf(store.bundleById(id).value.id).value, a)
    requires !CapApplies(a) || store.existingAddOns(store.bundleById(id).value.id, a.planName) + 1 <= a.plansAllowedInBundle
    ensures Accepted(BundleRequest(Some(id), None, billingDate, [a]), accountId, createdDate, store)
  {
    var req := BundleRequest(Some(id), None, billingDate, [a]);
    assert [a][..0] == [];
    assert OfCategory([a], AddOn) == [a];
    assert OfCategory([a], Base) == OfCategory([], Base) == [];
    assert OfCategory([a], Standalone) == OfCategory([], Standalone) == [];
    assert Reordering([a]) == [a];
    assert SameAddOnPlan(a, a.planName);
    assert CountInBatch([a], a.planName) == 1;
    var res := ResolutionOf(req, accountId, createdDate, store);
    assert res.Ok?;
    assert BuildFor(a, [a], false, res.value, store).Ok?;
  }
}
