/**
 * `AdminService`: administrator lookups, the moderation list of emitters and
 * the administrator's moderation decision.
 */
module AdminService {
  import opened Wrappers
  import opened Entities
  import opened Store
  import opened Collections
  import opened Ordering
  import opened Paging
  import opened GetEmittersFilterDto
  import EmittersService

  // ---------------------------------------------------------------- lookups

  function HasUsername(username: string): Admin -> bool { (a: Admin) => a.username == username }
  function HasEmail(email: string): Admin -> bool { (a: Admin) => a.email == Some(email) }
  function HasId(id: Id): Admin -> bool { (a: Admin) => a.adminId == id }

  /** `findByUsername`. */
  function FindByUsername(rows: seq<Admin>, username: string): (r: Option<Admin>)
    ensures r.Some? ==> r.value in rows && r.value.username == username
    ensures r.None? <==> forall j :: 0 <= j < |rows| ==> rows[j].username != username
  {
    var r := Find(rows, HasUsername(username));
    assert r.Some? ==> HasUsername(username)(r.value);
    assert r.None? ==> forall j :: 0 <= j < |rows| ==> !HasUsername(username)(rows[j]);
    r
  }

  /** `findByEmail`: an administrator without an email is never found by one. */
  function FindByEmail(rows: seq<Admin>, email: string): (r: Option<Admin>)
    ensures r.Some? ==> r.value in rows && r.value.email == Some(email)
    ensures r.None? <==> forall j :: 0 <= j < |rows| ==> rows[j].email != Some(email)
  {
    var r := Find(rows, HasEmail(email));
    assert r.Some? ==> HasEmail(email)(r.value);
    assert r.None? ==> forall j :: 0 <= j < |rows| ==> !HasEmail(email)(rows[j]);
    r
  }

  /** `findById`. */
  function FindById(rows: seq<Admin>, id: Id): (r: Option<Admin>)
    ensures r.Some? ==> r.value in rows && r.value.adminId == id
    ensures AdminsKeyed(rows) ==> (r.Some? <==> id < |rows|) && (r.Some? ==> r.value == rows[id])
  {
    assert AdminsKeyed(rows) && id < |rows| ==> HasId(id)(rows[id]);
    var r := Find(rows, HasId(id));
    assert r.Some? ==> HasId(id)(r.value);
    r
  }

  /**
   * While usernames and non-NULL emails are unique, a lookup by an
   * administrator's username or email finds that administrator.
   */
  lemma LookupsFindTheOwner(rows: seq<Admin>, k: nat)
    requires AdminUsernamesUnique(rows) && AdminEmailsUnique(rows) && k < |rows|
    ensures FindByUsername(rows, rows[k].username) == Some(rows[k])
    ensures rows[k].email.Some? ==> FindByEmail(rows, rows[k].email.value) == Some(rows[k])
  {
    assert HasUsername(rows[k].username)(rows[k]);
    if rows[k].email.Some? {
      assert HasEmail(rows[k].email.value)(rows[k]);
    }
  }

  // ---------------------------------------------------------------- moderation list

  /** The status condition: none, or the exact status asked for. */
  function WithStatus(status: Option<EmitterStatus>): Emitter -> bool
  {
    (e: Emitter) => status.None? || e.status == status.value
  }

  /** The ORDER BY column of the list: newest first. */
  function CreatedAt(e: Emitter): SortKey { Moment(e.createdAt) }

  /** Every emitter of the asked status, newest first. */
  function Listed(rows: seq<Emitter>, q: Query): seq<Emitter>
  {
    Sort(Filter(rows, WithStatus(q.status)), CreatedAt, Desc)
  }

  /**
   * `getEmitters`: one page of the emitters of the asked status (of any
   * status when none is asked), newest first; `total` counts all of them
   * whatever the page; page and limit are echoed.
   */
  function GetEmitters(rows: seq<Emitter>, q: Query): (r: PageResult<Emitter>)
    requires q.page >= 1 && q.limit >= 1
    ensures r.page == q.page && r.limit == q.limit && |r.data| <= q.limit
    ensures r.total == Count(rows, WithStatus(q.status))
    ensures forall i :: 0 <= i < |r.data| ==> r.data[i] in rows
    ensures q.status.Some? ==> forall i :: 0 <= i < |r.data| ==> r.data[i].status == q.status.value
  {
    var listed := Listed(rows, q);
    var page := PageOf(listed, q.page, q.limit);
    forall i | 0 <= i < |page|
      ensures page[i] in rows && WithStatus(q.status)(page[i])
    {
      assert page[i] in multiset(listed);
    }
    PageResult(page, |listed|, q.page, q.limit)
  }

  /** The list is newest first and holds exactly the emitters of the asked status, each once. */
  lemma ListIsNewestFirst(rows: seq<Emitter>, q: Query)
    ensures SortedBy(Listed(rows, q), CreatedAt, Desc)
    ensures multiset(Listed(rows, q)) == multiset(Filter(rows, WithStatus(q.status)))
  {
    SortSorted(Filter(rows, WithStatus(q.status)), CreatedAt, Desc);
  }

  /** A page is the slice of the list starting at `(page - 1) * limit`. */
  lemma PageIsSlice(rows: seq<Emitter>, q: Query, i: nat)
    requires q.page >= 1 && q.limit >= 1 && i < |GetEmitters(rows, q).data|
    ensures Offset(q.page, q.limit) + i < |Listed(rows, q)|
    ensures GetEmitters(rows, q).data[i] == Listed(rows, q)[Offset(q.page, q.limit) + i]
  {
  }

  /** Every emitter of the asked status is on some page. */
  lemma EveryMatchIsOnAPage(rows: seq<Emitter>, q: Query, k: nat)
    requires q.page >= 1 && q.limit >= 1 && k < |rows| && WithStatus(q.status)(rows[k])
    ensures exists p :: p >= 1 && rows[k] in GetEmitters(rows, q.(page := p)).data
  {
    var listed := Listed(rows, q);
    assert rows[k] in Filter(rows, WithStatus(q.status));
    assert rows[k] in multiset(listed);
    var m :| 0 <= m < |listed| && listed[m] == rows[k];
    var p, slot := EveryRowOnItsPage(listed, q.limit, m);
    assert Listed(rows, q.(page := p)) == listed;
    assert GetEmitters(rows, q.(page := p)).data[slot] == rows[k];
  }

  /** Without a status every emitter is counted; the total never depends on the page or the limit. */
  lemma TotalIgnoresPaging(rows: seq<Emitter>, q: Query, page: int, limit: int)
    requires q.page >= 1 && q.limit >= 1 && page >= 1 && limit >= 1
    ensures GetEmitters(rows, q.(page := page, limit := limit)).total == GetEmitters(rows, q).total
    ensures q.status.None? ==> GetEmitters(rows, q).total == |rows|
  {
    if q.status.None? {
      AllCounted(rows, WithStatus(q.status));
    }
  }

  lemma {:induction false} AllCounted(rows: seq<Emitter>, p: Emitter -> bool)
    requires forall e :: p(e)
    ensures Count(rows, p) == |rows|
  {
    if rows != [] {
      AllCounted(rows[1..], p);
    }
  }

  // ---------------------------------------------------------------- moderation decision

  /**
   * `updateEmitterStatus`: approve or reject. The same decision as the
   * emitters service's: an unknown key, then a rejection without a reason,
   * change nothing; otherwise the status is set and a reason is kept exactly
   * for a rejection, so approving clears it.
   */
  method UpdateEmitterStatus(emitters: EmitterTable, id: Id, status: EmitterStatus, reason: Option<string>)
    returns (r: Result<Emitter, Error>)
    requires emitters.Valid() && status != Pending
    modifies emitters
    ensures emitters.Valid()
    ensures r.Failure? ==> emitters.rows == old(emitters.rows)
    ensures id >= |old(emitters.rows)| ==> r == Failure(BadRequest(EmitterNotFound))
    ensures id < |old(emitters.rows)| && !EmittersService.Explained(status, reason) ==>
      r == Failure(BadRequest(RejectionReasonRequired))
    ensures id < |old(emitters.rows)| && EmittersService.Explained(status, reason) ==>
      && r.Success? && r.value.status == status
      && (r.value.rejectionReason.Some? <==> status == Rejected)
      && (status == Rejected ==> r.value.rejectionReason == reason)
      && r.value == EmittersService.Moderated(old(emitters.rows)[id], status, reason)
      && emitters.rows == old(emitters.rows)[id := r.value]
  {
    r := EmittersService.UpdateStatus(emitters, id, status, reason);
  }
}
