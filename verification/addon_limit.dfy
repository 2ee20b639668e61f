/** The per-bundle cap on add-ons of one plan (`getPlansAllowedInBundle()`), as
    checked when add-ons are created and when a change of plan is dry-run. */
module AddOnLimit {
  import opened Outcomes
  import opened Text
  import opened Catalog

  /** The specifier counts towards the in-batch total for `planName`. */
  predicate SameAddOnPlan(spec: PlanSpec, planName: string)
  {
    EqualsIgnoreCase(spec.planName, planName) && spec.category == AddOn
  }

  /** `countCurrentAddOnsWithSamePlanName`: the specifiers of the batch (the one
      being checked included) whose plan is an add-on named `planName`, ignoring case. */
  function CountInBatch(batch: seq<PlanSpec>, planName: string): (n: nat)
    ensures n <= |batch|
    ensures n == 0 <==> forall i :: 0 <= i < |batch| ==> !SameAddOnPlan(batch[i], planName)
  {
    if |batch| == 0 then 0
    else CountInBatch(batch[..|batch| - 1], planName) + (if SameAddOnPlan(batch[|batch| - 1], planName) then 1 else 0)
  }

  /** The cap is enforced for add-on plans with a positive limit; -1 (unlimited)
      and 0 switch it off. */
  predicate CapApplies(plan: PlanSpec)
  {
    plan.category == AddOn && plan.plansAllowedInBundle != -1 && plan.plansAllowedInBundle > 0
  }

  /** The creation-time check for one specifier of a batch, given the number of
      add-ons of the same plan already in the bundle. */
  function CheckCreationCap(plan: PlanSpec, existing: nat, batch: seq<PlanSpec>): (r: Outcome)
    ensures r.Fail? <==> (plan.category == AddOn && plan.plansAllowedInBundle > 0
                          && existing + CountInBatch(batch, plan.planName) > plan.plansAllowedInBundle)
    ensures r.Fail? ==> r.error == AddOnMaxPlanAllowedByBundle(plan.planName)
  {
    if CapApplies(plan) && existing + CountInBatch(batch, plan.planName) > plan.plansAllowedInBundle then
      Fail(AddOnMaxPlanAllowedByBundle(plan.planName))
    else Pass
  }

  /** The change-plan dry-run check: only the add-ons already in the bundle count. */
  function CheckChangeCap(plan: PlanSpec, existing: nat): (r: Outcome)
    ensures r.Fail? <==> (plan.category == AddOn && plan.plansAllowedInBundle > 0
                          && existing >= plan.plansAllowedInBundle)
    ensures r.Fail? ==> r.error == ChangeAddOnMaxPlanAllowedByBundle(plan.planName)
  {
    if CapApplies(plan) && existing >= plan.plansAllowedInBundle then
      Fail(ChangeAddOnMaxPlanAllowedByBundle(plan.planName))
    else Pass
  }

  /** Counting distributes over concatenation of batches. */
  lemma {:induction false} CountInBatchAppend(s: seq<PlanSpec>, t: seq<PlanSpec>, planName: string)
    ensures CountInBatch(s + t, planName) == CountInBatch(s, planName) + CountInBatch(t, planName)
    decreases |t|
  {
    if |t| == 0 {
      assert s + t == s;
    } else {
      assert (s + t)[..|s + t| - 1] == s + t[..|t| - 1];
      CountInBatchAppend(s, t[..|t| - 1], planName);
    }
  }

  /** The specifier being checked counts itself: an add-on in the batch sees an
      in-batch count of at least one for its own plan name. */
  lemma CountIncludesSelf(batch: seq<PlanSpec>, i: nat)
    requires i < |batch| && batch[i].category == AddOn
    ensures CountInBatch(batch, batch[i].planName) >= 1
  {
  }

  /** Plan names that differ only in letter case are counted together. */
  lemma {:induction false} CountIgnoresCase(batch: seq<PlanSpec>, a: string, b: string)
    requires EqualsIgnoreCase(a, b)
    ensures CountInBatch(batch, a) == CountInBatch(batch, b)
  {
    if |batch| > 0 {
      CountIgnoresCase(batch[..|batch| - 1], a, b);
      var x := batch[|batch| - 1].planName;
      EqualsIgnoreCaseSymmetric(a, b);
      EqualsIgnoreCaseTransitive(x, a, b);
      EqualsIgnoreCaseTransitive(x, b, a);
    }
  }

  /** Removing a specifier from a batch never makes the creation check fail. */
  lemma DroppingSpecifierKeepsPass(plan: PlanSpec, existing: nat, batch: seq<PlanSpec>, i: nat)
    requires i < |batch|
    requires CheckCreationCap(plan, existing, batch) == Pass
    ensures CheckCreationCap(plan, existing, batch[..i] + batch[i + 1..]) == Pass
  {
    var name := plan.planName;
    var pre, post := batch[..i], batch[i + 1..];
    CountInBatchAppend(pre, post, name);
    CountInBatchAppend(pre, [batch[i]] + post, name);
    CountInBatchAppend([batch[i]], post, name);
    assert pre + ([batch[i]] + post) == batch;
    assert CountInBatch(pre + post, name) <= CountInBatch(batch, name);
  }

  /** Creating one add-on and changing to that add-on plan agree: with the
      specifier the only one of its plan in the batch, the creation check fails
      exactly when the change-plan check does. */
  lemma CreationAgreesWithChangeForSingleAddOn(plan: PlanSpec, existing: nat, batch: seq<PlanSpec>)
    requires CountInBatch(batch, plan.planName) == 1
    ensures CheckCreationCap(plan, existing, batch).Fail? <==> CheckChangeCap(plan, existing).Fail?
  {
  }

  /** A limit of 2 with one add-on already in the bundle: one more is accepted,
      two more in the same batch are refused. */
  lemma LimitOfTwoExample(p: PlanSpec)
    requires p == PlanSpec("extra-seat", AddOn, 2)
    ensures CheckCreationCap(p, 1, [p]) == Pass
    ensures CheckCreationCap(p, 1, [p, p]) == Fail(AddOnMaxPlanAllowedByBundle("extra-seat"))
    ensures CheckCreationCap(PlanSpec("Extra-Seat", AddOn, 2), 1, [p, PlanSpec("EXTRA-SEAT", AddOn, 2)]).Fail?
  {
    assert SameAddOnPlan(p, p.planName);
    assert [p, p][..1] == [p];
    assert SameAddOnPlan(p, "Extra-Seat");
    assert SameAddOnPlan(PlanSpec("EXTRA-SEAT", AddOn, 2), "Extra-Seat");
    assert [p, PlanSpec("EXTRA-SEAT", AddOn, 2)][..1] == [p];
  }
}
