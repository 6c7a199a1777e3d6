/**
 * The body of the administrator's status change. The reason is optional here;
 * that a rejection needs one is left to the service.
 */
module UpdateEmitterStatusDto {
  import opened Wrappers
  import opened Entities

  datatype UpdateEmitterStatus = UpdateEmitterStatus(status: string, reason: Option<string>)

  predicate Valid(d: UpdateEmitterStatus)
  {
    && d.status in {"approved", "rejected"}
    && (d.reason.None? || |d.reason.value| <= 500)
  }

  /** The status value the service receives. */
  function StatusOf(d: UpdateEmitterStatus): (s: EmitterStatus)
    requires Valid(d)
    ensures s != Pending
    ensures s == Approved <==> d.status == "approved"
    ensures s == Rejected <==> d.status == "rejected"
  {
    if d.status == "approved" then Approved else Rejected
  }

  /** `pending` is not a status an administrator can send. */
  lemma PendingIsRefused(reason: Option<string>)
    ensures !Valid(UpdateEmitterStatus("pending", reason))
  {
  }

  /** A rejection without a reason passes this validator. */
  lemma RejectionWithoutReasonPasses()
    ensures Valid(UpdateEmitterStatus("rejected", None))
  {
  }
}
