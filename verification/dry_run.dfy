/** The pure decisions of the dry-run paths: the start of a simulated
    subscription, the effective date of a simulated change or cancellation, and
    the classification of a base plan's add-ons under a hypothetical new plan. */
module DryRun {
  import opened Outcomes
  import opened Calendar
  import opened Catalog
  import opened BundleStart

  /** `getDryRunEffectiveDate`. `toUtc` converts a local date of the account to an
      instant; `startLocalDate` is the subscription's start instant as a local date. */
  function DryRunEffectiveDate(inputDate: Option<Date>, toUtc: Date -> Instant,
                               subscriptionStart: Instant, startLocalDate: Date)
    : (r: Option<Instant>)
    ensures r.None? <==> inputDate.None?
    // on the local day the subscription starts, the date is never before its start
    ensures inputDate == Some(startLocalDate) ==> r.value >= subscriptionStart
    // any other day is converted unchanged
    ensures inputDate.Some? && inputDate.value != startLocalDate ==> r == Some(toUtc(inputDate.value))
    // the correction only ever moves the date later, and only up to the start
    ensures r.Some? ==>
              r.value >= toUtc(inputDate.value) && (r.value == toUtc(inputDate.value) || r.value == subscriptionStart)
  {
    if inputDate.None? then None
    else
      var candidate := toUtc(inputDate.value);
      if inputDate.value == startLocalDate && candidate < subscriptionStart then Some(subscriptionStart)
      else Some(candidate)
  }

  /** `BillingActionPolicy`. */
  datatype BillingActionPolicy = StartOfTerm | EndOfTerm | Immediate | Illegal

  /** The effective date of a CHANGE dry run: the explicit date when one was
      given, else the date of the requested policy, else of the catalog's default
      change policy. `dateUnder` stands for `getPlanChangeEffectiveDate` called
      without billing alignment, time zone or BCD, which fails for some policies. */
  function ChangeEffectiveDate(explicit: Option<Instant>, requestedPolicy: Option<BillingActionPolicy>,
                               catalogPolicy: BillingActionPolicy, dateUnder: BillingActionPolicy -> Result<Instant>)
    : (r: Result<Instant>)
    ensures explicit.Some? ==> r == Ok(explicit.value)
    ensures explicit.None? && requestedPolicy.Some? ==> r == dateUnder(requestedPolicy.value)
    ensures explicit.None? && requestedPolicy.None? ==> r == dateUnder(catalogPolicy)
  {
    var changeEffectiveDate := explicit;
    if changeEffectiveDate.None? then
      var policy := if requestedPolicy.Some? then requestedPolicy.value else catalogPolicy;
      dateUnder(policy)
    else Ok(changeEffectiveDate.value)
  }

  /** The effective date of a STOP_BILLING dry run. Unlike CHANGE, the code tests
      whether an input DATE was given rather than whether a date was computed. */
  function CancelEffectiveDate(inputDate: Option<Date>, toUtc: Date -> Instant,
                               subscriptionStart: Instant, startLocalDate: Date,
                               requestedPolicy: Option<BillingActionPolicy>, catalogPolicy: BillingActionPolicy,
                               dateUnder: BillingActionPolicy -> Result<Instant>)
    : (r: Result<Instant>)
    ensures inputDate.None? && requestedPolicy.None? ==> r == dateUnder(catalogPolicy)
    ensures inputDate.Some? ==> r.Ok? && r.value >= toUtc(inputDate.value)
  {
    var cancelEffectiveDate := DryRunEffectiveDate(inputDate, toUtc, subscriptionStart, startLocalDate);
    if inputDate.None? then
      var policy := if requestedPolicy.Some? then requestedPolicy.value else catalogPolicy;
      dateUnder(policy)
    else Ok(cancelEffectiveDate.value)
  }

  /** The two guards agree: STOP_BILLING resolves its date exactly as CHANGE does
      once the input date has gone through `getDryRunEffectiveDate`, because that
      conversion yields no date exactly when no date was given. */
  lemma CancelAndChangeResolveAlike(inputDate: Option<Date>, toUtc: Date -> Instant,
                                    subscriptionStart: Instant, startLocalDate: Date,
                                    requestedPolicy: Option<BillingActionPolicy>, catalogPolicy: BillingActionPolicy,
                                    dateUnder: BillingActionPolicy -> Result<Instant>)
    ensures CancelEffectiveDate(inputDate, toUtc, subscriptionStart, startLocalDate, requestedPolicy, catalogPolicy, dateUnder)
         == ChangeEffectiveDate(DryRunEffectiveDate(inputDate, toUtc, subscriptionStart, startLocalDate),
                                requestedPolicy, catalogPolicy, dateUnder)
  {
  }

  /** The simulated subscription of a START_BILLING dry run: its bundle start date
      and its alignment start date. */
  datatype SimulatedStart = SimulatedStart(bundleStartDate: Instant, alignStartDate: Instant)

  /** START_BILLING: the requested date (or now) goes through the bundle
      start-date rules unclamped. */
  function StartBillingDryRun(category: Category, base: Option<BaseSubscription>, requested: Option<Instant>,
                              now: Instant, rightsOk: bool)
    : (r: Result<SimulatedStart>)
    ensures r.Ok? ==> r.value.alignStartDate == (if requested.Some? then requested.value else now)
    ensures r.Ok? ==> r.value.bundleStartDate <= r.value.alignStartDate
    ensures r.Err? ==> r.code in {BasePlanExists, NoBasePlan, InvalidRequestedDate, AddOnCreationRefused}
    // the dry run succeeds and fails exactly as the start-date table does for the requested date
    ensures var start := BundleStartDate(category, base, if requested.Some? then requested.value else now, rightsOk);
            (r.Ok? <==> start.Ok?)
            && (r.Err? ==> r.code == start.code)
            && (r.Ok? ==> r.value.bundleStartDate == start.value)
  {
    var effective := if requested.Some? then requested.value else now;
    var start := BundleStartDate(category, base, effective, rightsOk);
    if start.Err? then Err(start.code) else Ok(SimulatedStart(start.value, effective))
  }

  /** Unlike creation, which first moves the date up to the base subscription's
      start, the START_BILLING dry run refuses an add-on dated before it. */
  lemma DryRunRefusesEarlyAddOn(base: BaseSubscription, requested: Instant, now: Instant)
    requires requested < base.startDate
    ensures StartBillingDryRun(AddOn, Some(base), Some(requested), now, true) == Err(InvalidRequestedDate)
  {
  }

  /** A base plan for a bundle without a base subscription, and an add-on dated on
      or after the live base's start with creation rights, are both simulated. */
  lemma DryRunAcceptsWellFormedStart(base: BaseSubscription, requested: Instant, now: Instant)
    ensures StartBillingDryRun(Base, None, Some(requested), now, false) == Ok(SimulatedStart(requested, requested))
    ensures requested >= base.startDate ==>
              StartBillingDryRun(AddOn, Some(base), Some(requested), now, true) == Ok(SimulatedStart(base.startDate, requested))
  {
  }

  /** `DryRunChangeReason`. */
  datatype ChangeReason = IncludedInNewPlan | AvailableInNewPlan | NotAvailableInNewPlan

  /** A subscription of the bundle as the add-on classification sees it. */
  datatype BundleSubscription = BundleSubscription(id: nat, category: Category, state: EntitlementState)

  /** An add-on and what the hypothetical change of base plan does to it. */
  datatype AddOnStatus = AddOnStatus(id: nat, reason: ChangeReason)

  /** The subscriptions of the bundle that are classified: every one except the
      base subscription itself and the cancelled ones, in bundle order. */
  function Considered(subs: seq<BundleSubscription>, subjectId: nat): seq<BundleSubscription>
  {
    if |subs| == 0 then []
    else
      var rest := Considered(subs[1..], subjectId);
      if subs[0].id == subjectId || subs[0].state == Cancelled then rest else [subs[0]] + rest
  }

  /** The reason given to one add-on. No base product name means a cancellation
      dry run, where every add-on is reported not available. */
  function ReasonFor(cur: BundleSubscription, baseProductName: Option<string>,
                     isIncluded: BundleSubscription -> bool, isAvailable: BundleSubscription -> bool): ChangeReason
  {
    if baseProductName.Some? && isIncluded(cur) then IncludedInNewPlan
    else if baseProductName.Some? && isAvailable(cur) then AvailableInNewPlan
    else NotAvailableInNewPlan
  }

  function Classify(subs: seq<BundleSubscription>, subjectId: nat, baseProductName: Option<string>,
                    isIncluded: BundleSubscription -> bool, isAvailable: BundleSubscription -> bool)
    : (r: seq<AddOnStatus>)
    ensures |r| == |Considered(subs, subjectId)|
    ensures forall k :: 0 <= k < |r| ==>
              var cur := Considered(subs, subjectId)[k];
              r[k].id == cur.id
              && (r[k].reason == IncludedInNewPlan <==> baseProductName.Some? && isIncluded(cur))
              && (r[k].reason == AvailableInNewPlan <==>
                    baseProductName.Some? && !isIncluded(cur) && isAvailable(cur))
  {
    if |subs| == 0 then []
    else
      var rest := Classify(subs[1..], subjectId, baseProductName, isIncluded, isAvailable);
      if subs[0].id == subjectId || subs[0].state == Cancelled then rest
      else [AddOnStatus(subs[0].id, ReasonFor(subs[0], baseProductName, isIncluded, isAvailable))] + rest
  }

  /** `getDryRunChangePlanStatus`: only a base subscription can be dry-run changed. */
  function DryRunChangePlanStatus(subject: Option<BundleSubscription>, bundle: seq<BundleSubscription>,
                                  baseProductName: Option<string>,
                                  isIncluded: BundleSubscription -> bool, isAvailable: BundleSubscription -> bool)
    : (r: Result<seq<AddOnStatus>>)
    ensures subject.None? ==> r == Err(InvalidSubscriptionId)
    ensures subject.Some? && subject.value.category != Base ==> r == Err(ChangeDryRunNotBasePlan)
    ensures r.Ok? <==> subject.Some? && subject.value.category == Base
    ensures r.Ok? ==> r.value == Classify(bundle, subject.value.id, baseProductName, isIncluded, isAvailable)
    ensures r.Ok? ==> forall k :: 0 <= k < |r.value| ==> r.value[k].id != subject.value.id
  {
    if subject.None? then Err(InvalidSubscriptionId)
    else if subject.value.category != Base then Err(ChangeDryRunNotBasePlan)
    else
      ConsideredExcludesSubject(bundle, subject.value.id);
      Ok(Classify(bundle, subject.value.id, baseProductName, isIncluded, isAvailable))
  }

  /** Neither the subject nor a cancelled subscription is ever classified, and
      every considered subscription comes from the bundle. */
  lemma {:induction false} ConsideredExcludesSubject(subs: seq<BundleSubscription>, subjectId: nat)
    ensures forall k :: 0 <= k < |Considered(subs, subjectId)| ==>
              Considered(subs, subjectId)[k].id != subjectId
              && Considered(subs, subjectId)[k].state != Cancelled
              && Considered(subs, subjectId)[k] in subs
  {
    if |subs| > 0 {
      ConsideredExcludesSubject(subs[1..], subjectId);
    }
  }

  /** A cancellation dry run (no base product name) reports every considered
      add-on as not available in the new plan. */
  lemma CancellationMarksAllNotAvailable(subs: seq<BundleSubscription>, subjectId: nat,
                                         isIncluded: BundleSubscription -> bool, isAvailable: BundleSubscription -> bool)
    ensures forall k :: 0 <= k < |Classify(subs, subjectId, None, isIncluded, isAvailable)| ==>
              Classify(subs, subjectId, None, isIncluded, isAvailable)[k].reason == NotAvailableInNewPlan
  {
  }
}
