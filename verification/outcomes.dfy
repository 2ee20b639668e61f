/** Optional values, the business error codes the subscription core raises, and
    the result types its decisions return in place of Java exceptions. */
module Outcomes {

  /** A value that may be absent; stands for a Java reference that may be null. */
  datatype Option<+T> = None | Some(value: T)

  /** The error codes of the subscription core (Kill Bill's ErrorCode values), plus
      the two programming errors the modelled code raises as runtime exceptions. */
  datatype ErrorCode =
    | InvalidEntitlementSpecifier              // SUB_CREATE_INVALID_ENTITLEMENT_SPECIFIER
    | AddOnMaxPlanAllowedByBundle(plan: string)  // SUB_CREATE_AO_MAX_PLAN_ALLOWED_BY_BUNDLE
    | ChangeAddOnMaxPlanAllowedByBundle(plan: string)  // SUB_CHANGE_AO_MAX_PLAN_ALLOWED_BY_BUNDLE
    | BasePlanExists                           // SUB_CREATE_BP_EXISTS
    | NoBasePlan                               // SUB_CREATE_NO_BP
    | InvalidRequestedDate                     // SUB_INVALID_REQUESTED_DATE
    | ActiveBundleKeyExists                    // SUB_CREATE_ACTIVE_BUNDLE_KEY_EXISTS
    | ExternalKeyLimitExceeded                 // EXTERNAL_KEY_LIMIT_EXCEEDED
    | InvalidSubscriptionId                    // SUB_INVALID_SUBSCRIPTION_ID
    | ChangeDryRunNotBasePlan                  // SUB_CHANGE_DRY_RUN_NOT_BP
    | AddOnCreationRefused                     // whatever the add-on creation-rights check raises
    | MissingAccountRecordId                   // IllegalStateException: context without account record id
    | IllegalDayOfMonth                        // IllegalFieldValueException from the LocalDate constructor

  /** Either a value or the error code the Java code would have thrown. */
  datatype Result<+T> = Ok(value: T) | Err(code: ErrorCode)

  /** The verdict of a check that returns nothing but may throw. */
  datatype Outcome = Pass | Fail(error: ErrorCode)
}
