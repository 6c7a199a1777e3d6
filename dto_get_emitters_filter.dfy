/** The query string of the administrator's list, `GET /admin/emitters`. */
module GetEmittersFilterDto {
  import opened Wrappers
  import opened Validation
  import opened Entities

  datatype GetEmittersFilter = GetEmittersFilter(status: Option<string>, page: Option<real>, limit: Option<real>)

  const Statuses: set<string> := {"pending", "approved", "rejected"}

  predicate Valid(d: GetEmittersFilter)
  {
    && (d.status.None? || d.status.value in Statuses)
    && (d.page.None? || (IsInt(d.page.value) && d.page.value >= 1.0))
    && (d.limit.None? || (IsInt(d.limit.value) && 1.0 <= d.limit.value <= 100.0))
  }

  /** A validated query with its defaults filled in. */
  datatype Query = Query(status: Option<EmitterStatus>, page: int, limit: int)

  function StatusOf(s: string): EmitterStatus
  {
    match s
    case "approved" => Approved
    case "rejected" => Rejected
    case _ => Pending
  }

  /** Page 1 and limit 20 unless given; a given status names one of the three states. */
  function Resolve(d: GetEmittersFilter): (q: Query)
    requires Valid(d)
    ensures q.page >= 1 && 1 <= q.limit <= 100
    ensures q.page as real == (if d.page.Some? then d.page.value else 1.0)
    ensures q.limit as real == (if d.limit.Some? then d.limit.value else 20.0)
    ensures q.status.None? <==> d.status.None?
    ensures q.status == Some(Pending) <==> d.status == Some("pending")
    ensures q.status == Some(Approved) <==> d.status == Some("approved")
    ensures q.status == Some(Rejected) <==> d.status == Some("rejected")
  {
    Query(
      if d.status.Some? then Some(StatusOf(d.status.value)) else None,
      if d.page.Some? then d.page.value.Floor else 1,
      if d.limit.Some? then d.limit.value.Floor else 20)
  }

  /** Every field is optional: the empty query is valid and asks for the first 20 emitters of any status. */
  lemma EmptyQueryDefaults()
    ensures Valid(GetEmittersFilter(None, None, None))
    ensures Resolve(GetEmittersFilter(None, None, None)) == Query(None, 1, 20)
  {
  }

  /** A limit above 100, a fractional page and an unknown status are refused. */
  lemma OutOfRangeIsRefused(d: GetEmittersFilter)
    ensures !Valid(d.(limit := Some(101.0)))
    ensures !Valid(d.(page := Some(1.5)))
    ensures !Valid(d.(status := Some("deleted")))
  {
  }
}
