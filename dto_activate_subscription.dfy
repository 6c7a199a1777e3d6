/** The body of `POST /subscriptions/activate`. */
module ActivateSubscriptionDto {
  import opened Validation

  datatype ActivateSubscription = ActivateSubscription(tariffId: string, durationDays: real)

  /** `tariffId` is a UUID and `duration_days` a positive number, with no upper bound and no integer check. */
  predicate Valid(d: ActivateSubscription, fmt: FormatChecks)
  {
    fmt.isUuid(d.tariffId) && d.durationDays > 0.0
  }

  /** A fractional or very long duration passes; zero and negative ones do not. */
  lemma DurationRule(d: ActivateSubscription, fmt: FormatChecks)
    requires fmt.isUuid(d.tariffId)
    ensures Valid(d.(durationDays := 1.5), fmt)
    ensures Valid(d.(durationDays := 1000000.0), fmt)
    ensures !Valid(d.(durationDays := 0.0), fmt)
    ensures !Valid(d.(durationDays := -1.0), fmt)
  {
  }
}
