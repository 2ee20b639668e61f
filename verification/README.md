# Kill Bill subscription creation rules and tenant-header predicate, in Dafny

This project models two pure decision cores of Kill Bill.

The first is the rule set of the subscription internal API (`DefaultSubscriptionInternalApi`):
- the billing-cycle-day (BCD) effective-date calculator;
- the classification and reordering of a bundle's entitlement specifiers;
- the per-bundle add-on cap, at creation and on a change-plan dry run;
- the bundle start-date decision table;
- the bundle-resolution branch of subscription creation, with its billing-date clamp and external-key guard;
- the comparator that lists a bundle's subscriptions;
- the pure parts of the dry-run paths.

The second is `KillBillApiDefinition.requiresTenantInformation`, which decides whether an HTTP request must carry tenant headers.

Catalog, DAO and cache calls are replaced by plain inputs:
- every entitlement specifier arrives already resolved to a `PlanSpec` (plan name, product category, plans allowed in bundle);
- stored state is a `Store` of total lookup functions;
- the add-on creation-rights check is a boolean verdict.

Instants (`DateTime`) are integers. Local dates are `Calendar.Date` values in the proleptic Gregorian calendar. A BCD change that takes effect at once is returned as `Immediate` rather than as the context's creation time.

Modules:
- `Outcomes`: option, result and error codes;
- `Text`: string comparisons;
- `Calendar`;
- `Catalog`: shared datatypes;
- `BillCycleDay`;
- `SpecifierOrder`;
- `AddOnLimit`;
- `BundleStart`;
- `Creation`;
- `SubscriptionOrder`;
- `DryRun`;
- `TenantHeaders`.

Three behaviours of the code that a reader could easily expect otherwise:
- **Requested date before the base subscription.** Lines 311-314 move the billing date up to the start of the bundle's base subscription before any specifier is checked. So `SUB_INVALID_REQUESTED_DATE` cannot arise when add-ons are created, even for an add-on dated before its base subscription. `Creation.PrepareBundle` proves this, and `Creation.AddOnJoinsBundleById` shows such an add-on accepted. Only the START_BILLING dry run can raise that error (`DryRun.DryRunRefusesEarlyAddOn`).
- **Bundles are created before they are checked.** A new bundle is created at line 318, inside the loop over bundle requests. That happens before the same request's specifiers are checked (line 331) and before later requests are looked at. A request that fails after line 318 leaves its new bundle behind. The model covers one bundle request, and bundle creation itself is storage.
- **Base plan into a bundle with a cancelled base.** During creation, a base or standalone batch for an existing bundle that has any base subscription is refused with `SUB_CREATE_BP_EXISTS`, whatever that subscription's state (line 322). The start-date table refuses a second base plan only when the base is ACTIVE or PENDING.

## Model

| member | source | states |
|---|---|---|
| BillCycleDay.EffectiveDateForNewBcd | subscription/src/main/java/org/killbill/billing/subscription/api/svcs/DefaultSubscriptionInternalApi.java:875-904 | A missing account record, or a BCD below 1, is an error. The result is immediate exactly when no date is given and the BCD is today's day. An explicit date equal to the BCD is kept. A smaller BCD lands in the next month (December wraps) on the clamped day. A larger BCD lands in the same month on the clamped day. Every scheduled date is valid, falls on the BCD and is not before the start. |
| BillCycleDay.ScheduledDateIsEarliest | subscription/src/main/java/org/killbill/billing/subscription/api/svcs/DefaultSubscriptionInternalApi.java:886-902 | The scheduled date is the first date on or after the start that falls on the BCD: no valid date in between falls on it. |
| BillCycleDay.ScheduledDateIsFixedPoint | subscription/src/main/java/org/killbill/billing/subscription/api/svcs/DefaultSubscriptionInternalApi.java:889-902 | Requesting the same BCD again from a scheduled date schedules exactly that date. |
| BillCycleDay.EndOfMonthSchedulesToday | subscription/src/main/java/org/killbill/billing/subscription/api/svcs/DefaultSubscriptionInternalApi.java:886-902 | On the last day of a month, a BCD beyond it with no date given falls on today but is scheduled on today's date, not made immediate. |
| BillCycleDay.ImmediateOnlyOnBillingDay | subscription/src/main/java/org/killbill/billing/subscription/api/svcs/DefaultSubscriptionInternalApi.java:895-897 | Immediate effect happens only on a day that already is a billing day for the BCD. |
| BillCycleDay.Examples | subscription/src/main/java/org/killbill/billing/subscription/api/svcs/DefaultSubscriptionInternalApi.java:889-902 | BCD 31 from February 15 gives February 28 (29 in a leap year). BCD 10 from December 15 gives January 10 of the next year. BCD 30 from January 31 gives February 28. BCD 10 on the 10th with no date is immediate. BCD 30 on February 28, 2023 with no date is scheduled on that day. |
| Calendar.DaysInMonth | subscription/src/main/java/org/killbill/billing/subscription/api/svcs/DefaultSubscriptionInternalApi.java:887 | Months have 28 to 31 days: 31 for the seven long months, 30 for the four short ones, and February 29 exactly in Gregorian leap years. |
| Calendar.PlusOneMonth | subscription/src/main/java/org/killbill/billing/subscription/api/svcs/DefaultSubscriptionInternalApi.java:891 | Adding one month gives a valid date in the following month (December wraps to January of the next year). The day is kept, or clamped to that month's last day. The result is after the input. |
| SpecifierOrder.ReorderBaseOrStandaloneFirst | subscription/src/main/java/org/killbill/billing/subscription/api/svcs/DefaultSubscriptionInternalApi.java:218-260 | The batch is refused with `SUB_CREATE_INVALID_ENTITLEMENT_SPECIFIER` exactly when it holds two base plans, or standalone plans next to a base plan or an add-on. Otherwise the output is the base plan, then the add-ons in input order, then the standalones. The flag is true exactly when a base or standalone plan is present. |
| SpecifierOrder.OfCategorySum | subscription/src/main/java/org/killbill/billing/subscription/api/svcs/DefaultSubscriptionInternalApi.java:226-259 | The reordered batch is a permutation of the input: every specifier appears exactly once. |
| SpecifierOrder.OfCategoryAppend | subscription/src/main/java/org/killbill/billing/subscription/api/svcs/DefaultSubscriptionInternalApi.java:226-240 | Sorting specifiers into categories works piece by piece: the selection from a concatenated batch is the concatenation of the selections. |
| SpecifierOrder.ReorderedSingleBase | subscription/src/main/java/org/killbill/billing/subscription/api/svcs/DefaultSubscriptionInternalApi.java:231-248 | In an accepted batch, no base plan appears after the first position. |
| SpecifierOrder.ReorderedBaseFirst | subscription/src/main/java/org/killbill/billing/subscription/api/svcs/DefaultSubscriptionInternalApi.java:245-248 | If the batch holds a base plan, the reordered batch starts with it. |
| SpecifierOrder.ReorderedStandaloneAlone | subscription/src/main/java/org/killbill/billing/subscription/api/svcs/DefaultSubscriptionInternalApi.java:250-258 | An accepted batch is either all standalone plans or has none. |
| SpecifierOrder.BaseMovesFirst | subscription/src/main/java/org/killbill/billing/subscription/api/svcs/DefaultSubscriptionInternalApi.java:245-248 | An add-on followed by a base plan is accepted and comes out with the base plan first. |
| AddOnLimit.CountInBatch | subscription/src/main/java/org/killbill/billing/subscription/api/svcs/DefaultSubscriptionInternalApi.java:355-372 | The in-batch count is at most the batch size. It is zero exactly when no specifier is an add-on whose plan name equals the given one, ignoring case. |
| AddOnLimit.CheckCreationCap | subscription/src/main/java/org/killbill/billing/subscription/api/svcs/DefaultSubscriptionInternalApi.java:176-188 | Creation fails with `SUB_CREATE_AO_MAX_PLAN_ALLOWED_BY_BUNDLE` and the plan name exactly when the plan is an add-on with a positive limit and existing plus in-batch add-ons exceed the limit. A limit of -1 or 0 never fails. |
| AddOnLimit.CheckChangeCap | subscription/src/main/java/org/killbill/billing/subscription/api/svcs/DefaultSubscriptionInternalApi.java:623-630 | A change-plan dry run fails with `SUB_CHANGE_AO_MAX_PLAN_ALLOWED_BY_BUNDLE` exactly when the target is an add-on with a positive limit and the existing add-ons already reach it. |
| AddOnLimit.CountInBatchAppend | subscription/src/main/java/org/killbill/billing/subscription/api/svcs/DefaultSubscriptionInternalApi.java:358-371 | The in-batch count of two concatenated batches is the sum of their counts. |
| AddOnLimit.CountIncludesSelf | subscription/src/main/java/org/killbill/billing/subscription/api/svcs/DefaultSubscriptionInternalApi.java:359-369 | The add-on being checked counts itself, so its in-batch count is at least one. |
| AddOnLimit.CountIgnoresCase | subscription/src/main/java/org/killbill/billing/subscription/api/svcs/DefaultSubscriptionInternalApi.java:365 | Plan names that differ only in letter case have the same in-batch count. |
| AddOnLimit.DroppingSpecifierKeepsPass | subscription/src/main/java/org/killbill/billing/subscription/api/svcs/DefaultSubscriptionInternalApi.java:182-183 | If a batch passes the creation cap, the same batch with one specifier removed also passes. |
| AddOnLimit.CreationAgreesWithChangeForSingleAddOn | subscription/src/main/java/org/killbill/billing/subscription/api/svcs/DefaultSubscriptionInternalApi.java:176-188 | With exactly one matching add-on in the batch, the creation cap check (`>` on existing plus batch) and the change-plan check (`>=` on existing) fail on the same inputs. |
| AddOnLimit.LimitOfTwoExample | subscription/src/main/java/org/killbill/billing/subscription/api/svcs/DefaultSubscriptionInternalApi.java:177-186 | Limit 2 with one existing add-on: one more is accepted, two more are refused, and so are two more whose names differ only in case. |
| BundleStart.BundleStartDate | subscription/src/main/java/org/killbill/billing/subscription/api/svcs/DefaultSubscriptionInternalApi.java:906-937 | `SUB_CREATE_BP_EXISTS` exactly for a base plan over an ACTIVE or PENDING base, or a standalone plan over any base. `SUB_CREATE_NO_BP` exactly for an add-on without a base. `SUB_INVALID_REQUESTED_DATE` exactly for an add-on dated before the base start. A refused rights check is an error. Otherwise a base or standalone plan starts on the requested date, and an add-on on the base's start, which is never after the requested date. |
| BundleStart.DecisionTable | subscription/src/main/java/org/killbill/billing/subscription/api/svcs/DefaultSubscriptionInternalApi.java:908-931 | The seven rows of the category and base-state table, each with its outcome. |
| BundleStart.CancelledBaseBlocksOnlyStandalone | subscription/src/main/java/org/killbill/billing/subscription/api/svcs/DefaultSubscriptionInternalApi.java:909-929 | A cancelled base subscription lets a new base plan start but still blocks a standalone plan. |
| Creation.BuildOne | subscription/src/main/java/org/killbill/billing/subscription/api/svcs/DefaultSubscriptionInternalApi.java:176-211 | A specifier over its cap is refused with the cap error. Within the cap, a batch with a base or standalone plan always builds the specifier, with its bundle starting and aligning on the effective date. Within the cap, an add-on batch succeeds or fails exactly as the start-date table does for the bundle's base subscription, with the same error and that table's bundle start date. A built subscription keeps its plan and aligns on the effective date. `SUB_INVALID_REQUESTED_DATE` arises only for an add-on dated before an existing base. |
| Creation.VerifyAndBuild | subscription/src/main/java/org/killbill/billing/subscription/api/svcs/DefaultSubscriptionInternalApi.java:150-216 | Succeeds exactly when every specifier passes, and then builds one subscription per specifier, in order. On failure, the error is that of the first failing specifier. |
| Creation.ResolveBundle | subscription/src/main/java/org/killbill/billing/subscription/api/svcs/DefaultSubscriptionInternalApi.java:288-327 | Each error case of finding the bundle, including add-ons with neither a bundle id nor a key (lines 324-326). The chosen bundle is the one the id names, or else this account's active bundle for the key. `SUB_CREATE_BP_EXISTS` arises exactly when a base or standalone batch names, by id, a bundle that has a base subscription. A bundle named by id is used whenever it exists, its key agrees and it would not get a second base plan, and add-ons given by this account's active key join that bundle. A base or standalone batch without a bundle id always gets a new bundle unless its key exceeds 255 characters. Add-ons alone never create a bundle. The billing date is the requested one moved up to the base subscription's start. |
| Creation.BillingDateNotBeforeBase | subscription/src/main/java/org/killbill/billing/subscription/api/svcs/DefaultSubscriptionInternalApi.java:308-315 | The resolved billing date is never before the chosen bundle's base subscription start. |
| Creation.ClampedDateIsNeverTooEarly | subscription/src/main/java/org/killbill/billing/subscription/api/svcs/DefaultSubscriptionInternalApi.java:311-314 | Once the date is not before the base start, no specifier is refused with `SUB_INVALID_REQUESTED_DATE`. |
| Creation.BuildForResolution | subscription/src/main/java/org/killbill/billing/subscription/api/svcs/DefaultSubscriptionInternalApi.java:329-339 | Building against the resolved bundle succeeds exactly when every specifier passes its checks there. On failure, the error is that of the first failing specifier in batch order. It never raises `SUB_INVALID_REQUESTED_DATE`. On success each subscription is exactly what its specifier builds against the chosen bundle and its base subscription, in batch order, all aligned on the billing date. |
| Creation.PrepareBundle | subscription/src/main/java/org/killbill/billing/subscription/api/svcs/DefaultSubscriptionInternalApi.java:280-340 | One bundle request succeeds exactly when its batch is well formed, a bundle is found or may be created, and every reordered specifier passes its checks. A malformed batch fails first with `SUB_CREATE_INVALID_ENTITLEMENT_SPECIFIER`, then any bundle error, then the error of the first failing specifier in reordered order. It never fails with `SUB_INVALID_REQUESTED_DATE`. On success, its subscriptions follow the reordered batch (base or standalone first), a permutation of the requested plans. Each subscription is exactly what its reordered specifier builds against the chosen bundle. All are aligned on the billing date. A batch with a base or standalone plan starts its bundle on the billing date, and the add-ons of an add-on-only batch get the existing base subscription's start as bundle start date (lines 192-195, 924). |
| Creation.SingleBasePlanAccepted | subscription/src/main/java/org/killbill/billing/subscription/api/svcs/DefaultSubscriptionInternalApi.java:280-331 | A single base plan with no bundle id and a key of at most 255 characters is accepted, with a new bundle billed from the requested date or the creation time. |
| Creation.AddOnJoinsBundleById | subscription/src/main/java/org/killbill/billing/subscription/api/svcs/DefaultSubscriptionInternalApi.java:288-331 | An add-on named by its bundle id is accepted when the base subscription grants creation rights and the cap leaves room, even if its requested date is before the base subscription's start. |
| SubscriptionOrder.Compare | subscription/src/main/java/org/killbill/billing/subscription/api/svcs/DefaultSubscriptionInternalApi.java:119-131 | The result is -1, 0 or 1. It is negative exactly when the first is a base subscription, or neither is and the first aligns earlier. It is zero only between two non-base subscriptions aligned at the same instant. |
| SubscriptionOrder.BaseAgainstBaseIsInconsistent | subscription/src/main/java/org/killbill/billing/subscription/api/svcs/DefaultSubscriptionInternalApi.java:123-124 | Two base subscriptions each compare lower than the other: the comparator is not antisymmetric. |
| SubscriptionOrder.ConsistentUnlessBothBase | subscription/src/main/java/org/killbill/billing/subscription/api/svcs/DefaultSubscriptionInternalApi.java:122-129 | Without two base subscriptions among the compared ones, the comparator is antisymmetric in sign and transitive. |
| SubscriptionOrder.InsertKeepsOrder | subscription/src/main/java/org/killbill/billing/subscription/api/svcs/DefaultSubscriptionInternalApi.java:517 | Inserting into a list in listing order keeps it in listing order. |
| SubscriptionOrder.SortSubscriptions | subscription/src/main/java/org/killbill/billing/subscription/api/svcs/DefaultSubscriptionInternalApi.java:517 | The sorted list is a permutation of the input. Base subscriptions precede all others, and the others ascend by alignment start date. |
| SubscriptionOrder.ListingOrderAgreesWithComparator | subscription/src/main/java/org/killbill/billing/subscription/api/svcs/DefaultSubscriptionInternalApi.java:119-131 | With at most one base subscription, a list in listing order has no pair that the comparator puts the other way round. |
| SubscriptionOrder.BaseListedFirst | subscription/src/main/java/org/killbill/billing/subscription/api/svcs/DefaultSubscriptionInternalApi.java:517 | When a bundle has a base subscription, the sorted list starts with one. |
| DryRun.DryRunEffectiveDate | subscription/src/main/java/org/killbill/billing/subscription/api/svcs/DefaultSubscriptionInternalApi.java:780-793 | No date without an input date. On the subscription's start day the result is never before the start. On other days it is the plain conversion. The correction only moves the date later, and only up to the start. |
| DryRun.ChangeEffectiveDate | subscription/src/main/java/org/killbill/billing/subscription/api/svcs/DefaultSubscriptionInternalApi.java:738-747 | An explicit date wins. Otherwise the date follows the caller's policy, or the catalog's default change policy when none was given. |
| DryRun.CancelEffectiveDate | subscription/src/main/java/org/killbill/billing/subscription/api/svcs/DefaultSubscriptionInternalApi.java:754-765 | Without a date or a policy, the catalog's cancellation policy decides. A given date always yields a date no earlier than its conversion. |
| DryRun.CancelAndChangeResolveAlike | subscription/src/main/java/org/killbill/billing/subscription/api/svcs/DefaultSubscriptionInternalApi.java:738-765 | STOP_BILLING tests for an input date and CHANGE tests for a computed date, yet both resolve the same date. |
| DryRun.StartBillingDryRun | subscription/src/main/java/org/killbill/billing/subscription/api/svcs/DefaultSubscriptionInternalApi.java:715-729 | The dry run succeeds and fails exactly as the start-date table does for the requested date (or now), with the same error and that table's bundle start date. The simulated subscription aligns on the requested date, and its bundle starts no later than that. |
| DryRun.DryRunAcceptsWellFormedStart | subscription/src/main/java/org/killbill/billing/subscription/api/svcs/DefaultSubscriptionInternalApi.java:715-729 | A base plan for a bundle without a base subscription is simulated from the requested date. An add-on dated on or after its base subscription's start, with creation rights, is simulated with the base's start as bundle start. |
| DryRun.DryRunRefusesEarlyAddOn | subscription/src/main/java/org/killbill/billing/subscription/api/svcs/DefaultSubscriptionInternalApi.java:718-719 | An add-on dry-run dated before its base subscription is refused with `SUB_INVALID_REQUESTED_DATE`. |
| DryRun.Classify | subscription/src/main/java/org/killbill/billing/subscription/api/svcs/DefaultSubscriptionInternalApi.java:652-677 | There is one status per considered subscription, in order. A status is "included" exactly when a product name is given and the add-on is included. It is "available" exactly when a name is given and the add-on is available but not included. |
| DryRun.DryRunChangePlanStatus | subscription/src/main/java/org/killbill/billing/subscription/api/svcs/DefaultSubscriptionInternalApi.java:636-683 | An unknown subscription gives `SUB_INVALID_SUBSCRIPTION_ID`. A non-base one gives `SUB_CHANGE_DRY_RUN_NOT_BP`. A base subscription always gets an answer: the classification of the bundle's other live subscriptions. The base subscription itself is never among the statuses. |
| DryRun.ConsideredExcludesSubject | subscription/src/main/java/org/killbill/billing/subscription/api/svcs/DefaultSubscriptionInternalApi.java:652-660 | Neither the changed subscription nor a cancelled one is ever classified. Every classified one belongs to the bundle. |
| DryRun.CancellationMarksAllNotAvailable | subscription/src/main/java/org/killbill/billing/subscription/api/svcs/DefaultSubscriptionInternalApi.java:663-670 | Without a base product name (a cancellation dry run), every add-on is reported not available. |
| TenantHeaders.RequiresTenantInformation | jaxrs/src/main/java/org/killbill/billing/jaxrs/resources/KillBillApiDefinition.java:127-170 | OPTIONS (any case) never needs a tenant, and neither does POST on exactly the tenants path. Paths under the security or plugins path, or equal to the node-info path, never do, whatever the method. A GET outside both the API prefix and the plugins path never does. A missing path needs one exactly when the method is neither GET nor OPTIONS. |
| TenantHeaders.RequiresTenantMatchesPlainRule | jaxrs/src/main/java/org/killbill/billing/jaxrs/resources/KillBillApiDefinition.java:127-170 | The predicate equals a flat rule: tenant info is required exactly when none of the six exemptions applies, spelled out per path and method. |
| TenantHeaders.TenantCreationExemptionIsNarrow | jaxrs/src/main/java/org/killbill/billing/jaxrs/resources/KillBillApiDefinition.java:127-150 | On a tenants path inside the API and outside the cross-tenant paths, POST needs no tenant, but GET and PUT there do, and so does POST on any longer path below it. |
| TenantHeaders.MethodCaseIgnored | jaxrs/src/main/java/org/killbill/billing/jaxrs/resources/KillBillApiDefinition.java:156-162 | "options" and "Options" are exempt like "OPTIONS". With a missing path, "get" is exempt and "DELETE" is not. |

## Left out

- Storage and transport are not modelled:
  - persistence: creating bundles and subscriptions, BCD-change events, charged-through dates, external-key updates;
  - the subscription-event generation of dry runs (`getEventsOnCreation`, `getEventsOnChangePlan`, `getEventsOnCancelPlan`, `dryRunChangePlan`, `getPlanChangeResult`, `getPlanChangeEffectiveDate`), which is not visible; the policy-to-date step is a parameter;
  - caches and loaders, pagination and search, the pass-through getters, `cancelBaseSubscriptions`, `getDefaultBillCycleDayLocal`, the transition projection, and Swagger decoration.
- Catalog resolution is not modelled: specifiers arrive resolved to a `PlanSpec`, so catalog errors are not modelled. Other cases missing for the same reason:
  - a plan without an initial phase;
  - an entitlement specifier without a plan (skipped at line 162);
  - the null plan of an empty dry-run specifier.
- Add-on collaborator calls are inputs: `countExistingAddOnsWithSamePlanName` and `checkAddonCreationRights`. `getActiveBundleForKey` is also an input lookup, because it reads stored subscriptions and the clock.
- Time-zone conversions (`toUTCDateTime`, `toLocalDate`) and millisecond truncation are not modelled. The dry-run date takes the conversion as a parameter.
- Text.EqualsIgnoreCase: folds ASCII letters only. Java's `equalsIgnoreCase` folds every character through `Character.toUpperCase` and `toLowerCase`, so "É" matches "é" and 'ſ' matches 'S'. A full Unicode case table is out of scope.
- AddOnLimit.CountInBatch: because of the ASCII-only folding, plan names that differ only in the case of non-ASCII letters count as different plans here, where Java (line 365) counts them as one.
- TenantHeaders.RequiresTenantInformation: for the same reason, an HTTP method such as "poſt" is not matched to POST here, while Java would match it.
- Creation.ResolveBundle: a base or standalone batch without a bundle id is resolved to a new bundle. The storage layer still checks that bundle's key for conflicts when it creates it (the comment at line 297, `createSubscriptionBundle` at line 410), and that check is storage, not modelled.
- Creation.ResolveBundle: counts the external key's length in characters. Java counts UTF-16 code units, so a key with supplementary characters may measure longer in Java.
- SubscriptionOrder.SortSubscriptions: is an insertion sort that places each element after every equal one, as Java's sort does for lists under 32 elements. Its contract states the listing order and the permutation. It does not state stability: that non-base subscriptions with equal alignment dates keep their input order, as Java's stable sort does. Java's merge phase on longer lists holding several base subscriptions is not modelled either.
- BillCycleDay.EffectiveDateForNewBcd: does not model Joda-Time's year range limits, where `plusMonths` would throw.
- Creation.BuildOne: the built subscription keeps only its plan, bundle start date and alignment start date. The other fields set at lines 198-211 are passed through unchanged and not modelled: the real price list, the initial phase, the processed date (the call's creation time), the migrated flag, the fresh subscription id and the bundle's id and key.
- Creation.PrepareBundle: resolves each specifier to its plan once. The code resolves it at the requested date to reorder the batch (line 286, via line 263), and again at the clamped billing date for the checks (lines 169 and 337). The comment at line 285 notes that the two can differ; the model assumes they agree.
- Creation.BuildOne: the add-on creation-rights verdict `Store.addOnRightsOk` takes no date, while line 923 passes the effective date to the rights check.
- DryRun.Classify: each status keeps only the subscription id and the reason. The product name, phase type, billing period and price list that lines 671-675 also fill in are passed through and not modelled.
- The unsupported dry-run action branch and the unknown product-category branch are not modelled, because both enumerations are closed here.
