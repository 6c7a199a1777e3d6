/**
 * `EmittersService`: the accounts of issuing companies. It looks emitters up
 * by their unique columns, creates an account together with its financial
 * and analytics records, applies profile and moderation updates, and serves
 * the public details page and the owner's profile.
 */
module EmittersService {
  import opened Wrappers
  import opened Entities
  import opened Store
  import opened Collections
  import opened FinancialDataService
  import opened AnaliticsService
  import opened SubscribesService
  import opened InvestorsService
  import opened UpdateEmitterProfileDto
  import opened Validation
  import opened PublicScreener
  import GetPublicEmittersFilterDto

  // ---------------------------------------------------------------- lookups

  function HasEmail(email: string): Emitter -> bool { (e: Emitter) => e.email == email }
  function HasName(name: string): Emitter -> bool { (e: Emitter) => e.name == name }
  function HasInn(inn: string): Emitter -> bool { (e: Emitter) => e.inn == Some(inn) }
  function HasOgrn(ogrn: string): Emitter -> bool { (e: Emitter) => e.ogrnOgrnip == Some(ogrn) }

  /** `findByEmail`. */
  function FindByEmail(rows: seq<Emitter>, email: string): (r: Option<Emitter>)
    ensures r.Some? ==> r.value in rows && r.value.email == email
    ensures r.None? <==> forall j :: 0 <= j < |rows| ==> rows[j].email != email
  {
    var r := Find(rows, HasEmail(email));
    assert r.Some? ==> HasEmail(email)(r.value);
    assert r.None? ==> forall j :: 0 <= j < |rows| ==> !HasEmail(email)(rows[j]);
    r
  }

  /** `findByName`. */
  function FindByName(rows: seq<Emitter>, name: string): (r: Option<Emitter>)
    ensures r.Some? ==> r.value in rows && r.value.name == name
    ensures r.None? <==> forall j :: 0 <= j < |rows| ==> rows[j].name != name
  {
    var r := Find(rows, HasName(name));
    assert r.Some? ==> HasName(name)(r.value);
    assert r.None? ==> forall j :: 0 <= j < |rows| ==> !HasName(name)(rows[j]);
    r
  }

  /** `findByInn`: an empty INN finds nothing, whatever is stored. */
  function FindByInn(rows: seq<Emitter>, inn: string): (r: Option<Emitter>)
    ensures inn == "" ==> r.None?
    ensures r.Some? ==> r.value in rows && r.value.inn == Some(inn)
    ensures inn != "" ==> (r.None? <==> forall j :: 0 <= j < |rows| ==> rows[j].inn != Some(inn))
  {
    if inn == "" then None
    else
      var r := Find(rows, HasInn(inn));
      assert r.Some? ==> HasInn(inn)(r.value);
      assert r.None? ==> forall j :: 0 <= j < |rows| ==> !HasInn(inn)(rows[j]);
      r
  }

  /** `findByOgrn`: an empty OGRN/OGRNIP finds nothing, whatever is stored. */
  function FindByOgrn(rows: seq<Emitter>, ogrn: string): (r: Option<Emitter>)
    ensures ogrn == "" ==> r.None?
    ensures r.Some? ==> r.value in rows && r.value.ogrnOgrnip == Some(ogrn)
    ensures ogrn != "" ==> (r.None? <==> forall j :: 0 <= j < |rows| ==> rows[j].ogrnOgrnip != Some(ogrn))
  {
    if ogrn == "" then None
    else
      var r := Find(rows, HasOgrn(ogrn));
      assert r.Some? ==> HasOgrn(ogrn)(r.value);
      assert r.None? ==> forall j :: 0 <= j < |rows| ==> !HasOgrn(ogrn)(rows[j]);
      r
  }

  /** `findById`. */
  function FindById(rows: seq<Emitter>, id: Id): (r: Option<Emitter>)
    ensures r.Some? ==> r.value in rows && r.value.emitentId == id
    ensures EmittersKeyed(rows) ==> (r.Some? <==> id < |rows|) && (r.Some? ==> r.value == rows[id])
  {
    match IndexById(rows, id)
    case None => None
    case Some(k) => Some(rows[k])
  }

  /**
   * While the unique columns hold, each lookup by a stored value finds
   * exactly the row that holds it, never another one.
   */
  lemma LookupsFindTheOwner(rows: seq<Emitter>, k: nat)
    requires UniqueColumns(rows) && k < |rows|
    ensures FindByEmail(rows, rows[k].email) == Some(rows[k])
    ensures FindByName(rows, rows[k].name) == Some(rows[k])
    ensures rows[k].inn.Some? && rows[k].inn.value != "" ==> FindByInn(rows, rows[k].inn.value) == Some(rows[k])
    ensures rows[k].ogrnOgrnip.Some? && rows[k].ogrnOgrnip.value != "" ==>
      FindByOgrn(rows, rows[k].ogrnOgrnip.value) == Some(rows[k])
  {
    var e := rows[k];
    assert forall j :: 0 <= j < |rows| && j != k ==> NoClash(rows[j], rows[k]) && NoClash(rows[k], rows[j]);
    assert HasEmail(e.email)(rows[k]);
    assert HasName(e.name)(rows[k]);
    if e.inn.Some? && e.inn.value != "" {
      assert HasInn(e.inn.value)(rows[k]);
    }
    if e.ogrnOgrnip.Some? && e.ogrnOgrnip.value != "" {
      assert HasOgrn(e.ogrnOgrnip.value)(rows[k]);
    }
  }

  // ---------------------------------------------------------------- creation

  /** Every emitter has its financial and analytics record, and no record is orphaned. */
  ghost predicate Linked(rows: seq<Emitter>, financial: map<Id, FinancialData>, analitics: map<Id, Analitics>)
  {
    && (forall id :: id in financial <==> id < |rows|)
    && (forall id :: id in analitics <==> id < |rows|)
  }

  /**
   * `create`: the account is saved under the next key, then its initial
   * financial record, then its zeroed analytics record. The three writes are
   * not one transaction: a refusal after the first leaves what was written.
   * On tables that are linked, the two records can never clash, and the
   * tables stay linked.
   */
  method Create(emitters: EmitterTable, financial: FinancialDataTable, analitics: AnaliticsTable, e: Emitter)
    returns (r: Result<Emitter, Error>)
    requires emitters.Valid() && financial.Valid() && analitics.Valid()
    modifies emitters, financial, analitics
    ensures emitters.Valid() && financial.Valid() && analitics.Valid()
    ensures var id := |old(emitters.rows)|; var saved := e.(emitentId := id);
      if !WithinWidths(saved) then
        && r == Failure(InternalServerError(ValueTooLong))
        && emitters.rows == old(emitters.rows)
        && financial.rows == old(financial.rows)
        && analitics.rows == old(analitics.rows)
      else if !FitsAt(old(emitters.rows), id, saved) then
        && r == Failure(InternalServerError(UniqueViolation))
        && emitters.rows == old(emitters.rows)
        && financial.rows == old(financial.rows)
        && analitics.rows == old(analitics.rows)
      else if id in old(financial.rows) then
        && r == Failure(InternalServerError(UniqueViolation))
        && emitters.rows == old(emitters.rows) + [saved]
        && financial.rows == old(financial.rows)
        && analitics.rows == old(analitics.rows)
      else if id in old(analitics.rows) then
        && r == Failure(InternalServerError(UniqueViolation))
        && emitters.rows == old(emitters.rows) + [saved]
        && financial.rows == old(financial.rows)[id := InitialFinancialData(id)]
        && analitics.rows == old(analitics.rows)
      else
        && r == Success(saved)
        && emitters.rows == old(emitters.rows) + [saved]
        && financial.rows == old(financial.rows)[id := InitialFinancialData(id)]
        && analitics.rows == old(analitics.rows)[id := Analitics(id, 0, 0)]
    ensures Linked(old(emitters.rows), old(financial.rows), old(analitics.rows)) ==>
      && (r.Success? <==>
        && WithinWidths(e.(emitentId := |old(emitters.rows)|))
        && FitsAt(old(emitters.rows), |old(emitters.rows)|, e.(emitentId := |old(emitters.rows)|)))
      && Linked(emitters.rows, financial.rows, analitics.rows)
  {
    var created := emitters.Insert(e);
    if created.Failure? {
      return created;
    }
    var id := created.value.emitentId;
    var f := CreateInitialFinancialData(financial, id);
    if f.Failure? {
      return Failure(f.error);
    }
    var a := CreateInitialAnalitics(analitics, id);
    if a.Failure? {
      return Failure(a.error);
    }
    r := created;
  }

  // ---------------------------------------------------------------- profile update

  /**
   * What `Object.assign` leaves in a nullable column: the stored value when
   * the field is left out, NULL when it is sent as `null`, the sent value
   * otherwise.
   */
  function Assign(f: Field<string>, stored: Option<string>): Option<string>
  {
    match f
    case Absent => stored
    case Null => None
    case Sent(v) => Some(v)
  }

  /**
   * `Object.assign(emitter, updateData)` for a profile update, as the row the
   * following `save` writes; `None` when the name is sent as `null`, which
   * the NOT NULL `name` column refuses.
   */
  function ApplyPatch(e: Emitter, p: UpdateEmitterProfile): (r: Option<Emitter>)
    ensures r.None? <==> p.name.Null?
    ensures r.Some? ==>
      && r.value.emitentId == e.emitentId && r.value.email == e.email && r.value.password == e.password
      && r.value.status == e.status && r.value.rejectionReason == e.rejectionReason
      && r.value.createdAt == e.createdAt
  {
    if p.name.Null? then None
    else Some(e.(
      name := if p.name.Sent? then p.name.value else e.name,
      inn := Assign(p.inn, e.inn),
      ogrnOgrnip := Assign(p.ogrnOgrnip, e.ogrnOgrnip),
      legalAddress := Assign(p.legalAddress, e.legalAddress),
      actualAddress := Assign(p.actualAddress, e.actualAddress),
      phone := Assign(p.phone, e.phone),
      website := Assign(p.website, e.website),
      description := Assign(p.description, e.description),
      logoUrl := Assign(p.logoUrl, e.logoUrl)))
  }

  /** `now` is what a column holds after a field `f` is assigned over `stored`. */
  predicate Written(f: Field<string>, stored: Option<string>, now: Option<string>)
  {
    && (f.Absent? ==> now == stored)
    && (f.Null? ==> now.None?)
    && (f.Sent? ==> now == Some(f.value))
  }

  /** An update that supplies nothing leaves the emitter as it was. */
  lemma EmptyPatchChangesNothing(e: Emitter)
    ensures ApplyPatch(e, NoChanges()) == Some(e)
  {
  }

  /** Sending the same update twice has the effect of sending it once. */
  lemma PatchIsIdempotent(e: Emitter, p: UpdateEmitterProfile)
    ensures ApplyPatch(e, p).Some? ==> ApplyPatch(ApplyPatch(e, p).value, p) == ApplyPatch(e, p)
  {
  }

  /**
   * Field by field: a sent value shows up in the row, a `null` clears a
   * nullable column, and a field left out keeps what was stored.
   */
  lemma PatchOverwrites(e: Emitter, p: UpdateEmitterProfile)
    ensures ApplyPatch(e, p).Some? ==> var r := ApplyPatch(e, p).value;
      && (p.name.Sent? ==> r.name == p.name.value)
      && (p.name.Absent? ==> r.name == e.name)
      && Written(p.inn, e.inn, r.inn)
      && Written(p.ogrnOgrnip, e.ogrnOgrnip, r.ogrnOgrnip)
      && Written(p.legalAddress, e.legalAddress, r.legalAddress)
      && Written(p.actualAddress, e.actualAddress, r.actualAddress)
      && Written(p.phone, e.phone, r.phone)
      && Written(p.website, e.website, r.website)
      && Written(p.description, e.description, r.description)
      && Written(p.logoUrl, e.logoUrl, r.logoUrl)
  {
  }

  /**
   * The update's validation bounds no phone length, so an update that passes
   * it can still carry a phone wider than the `varchar(20)` column.
   */
  lemma ValidUpdateCanOverflowPhone(e: Emitter, fmt: FormatChecks, phone: string)
    requires |phone| > 20
    ensures var p := NoChanges().(phone := Sent(phone));
      && UpdateEmitterProfileDto.Valid(p, fmt)
      && ApplyPatch(e, p).Some? && !WithinWidths(ApplyPatch(e, p).value)
  {
  }

  /**
   * `update`: an unknown key is a bad request. Otherwise the patched row is
   * saved, unless the database refuses it: a `null` name breaks NOT NULL, a
   * value wider than its column is refused, and so is a changed name, INN or
   * OGRN that collides with another emitter's. A refusal changes nothing.
   */
  method Update(emitters: EmitterTable, id: Id, patch: UpdateEmitterProfile) returns (r: Result<Emitter, Error>)
    requires emitters.Valid()
    modifies emitters
    ensures emitters.Valid()
    ensures r.Failure? ==> emitters.rows == old(emitters.rows)
    ensures id >= |old(emitters.rows)| ==> r == Failure(BadRequest(EmitterNotFound))
    ensures id < |old(emitters.rows)| && patch.name.Null? ==> r == Failure(InternalServerError(NotNullViolation))
    ensures id < |old(emitters.rows)| && !patch.name.Null? ==> var e := ApplyPatch(old(emitters.rows)[id], patch).value;
      if !WithinWidths(e) then r == Failure(InternalServerError(ValueTooLong))
      else if FitsAt(old(emitters.rows), id, e) then r == Success(e) && emitters.rows == old(emitters.rows)[id := e]
      else r == Failure(InternalServerError(UniqueViolation))
  {
    var k := IndexById(emitters.rows, id);
    if k.None? {
      return Failure(BadRequest(EmitterNotFound));
    }
    var patched := ApplyPatch(emitters.rows[k.value], patch);
    if patched.None? {
      return Failure(InternalServerError(NotNullViolation));
    }
    r := emitters.Save(k.value, patched.value);
  }

  // ---------------------------------------------------------------- moderation

  /** A rejection must come with a non-empty reason; approval and resubmission need none. */
  predicate Explained(status: EmitterStatus, reason: Option<string>)
  {
    status == Rejected ==> reason.Some? && reason.value != ""
  }

  /** An emitter carries a (non-empty) rejection reason exactly when it is rejected. */
  predicate ReasonConsistent(e: Emitter)
  {
    && (e.rejectionReason.Some? <==> e.status == Rejected)
    && (e.rejectionReason.Some? ==> e.rejectionReason.value != "")
  }

  /** The emitter after a moderation decision: the new status, the reason kept only for a rejection. */
  function Moderated(e: Emitter, status: EmitterStatus, reason: Option<string>): (r: Emitter)
    requires Explained(status, reason)
    ensures r.status == status && ReasonConsistent(r)
    ensures status == Rejected ==> r.rejectionReason == reason
    ensures r.(status := e.status, rejectionReason := e.rejectionReason) == e
  {
    e.(status := status, rejectionReason := if status == Rejected then OrNull(reason) else None)
  }

  /** Resubmitting for review, or approving, erases any earlier rejection reason. */
  lemma ResubmissionClearsReason(e: Emitter, reason: Option<string>)
    ensures Moderated(e, Pending, reason).rejectionReason.None?
    ensures Moderated(e, Approved, reason).rejectionReason.None?
  {
  }

  /** A moderation decision changes no unique column, so saving it can never clash. */
  lemma ModerationFits(rows: seq<Emitter>, k: nat, status: EmitterStatus, reason: Option<string>)
    requires UniqueColumns(rows) && k < |rows| && Explained(status, reason)
    ensures FitsAt(rows, k, Moderated(rows[k], status, reason))
  {
    var e := Moderated(rows[k], status, reason);
    forall j | 0 <= j < |rows| && j != k
      ensures NoClash(e, rows[j]) && NoClash(rows[j], e)
    {
      assert NoClash(rows[k], rows[j]) && NoClash(rows[j], rows[k]);
    }
  }

  /**
   * `updateStatus`: an unknown key, then a rejection without a reason, are bad
   * requests that change nothing; otherwise the decision is saved.
   */
  method UpdateStatus(emitters: EmitterTable, id: Id, status: EmitterStatus, reason: Option<string>)
    returns (r: Result<Emitter, Error>)
    requires emitters.Valid()
    modifies emitters
    ensures emitters.Valid()
    ensures r.Failure? ==> emitters.rows == old(emitters.rows)
    ensures id >= |old(emitters.rows)| ==> r == Failure(BadRequest(EmitterNotFound))
    ensures id < |old(emitters.rows)| && !Explained(status, reason) ==> r == Failure(BadRequest(RejectionReasonRequired))
    ensures id < |old(emitters.rows)| && Explained(status, reason) ==>
      && r == Success(Moderated(old(emitters.rows)[id], status, reason))
      && emitters.rows == old(emitters.rows)[id := r.value]
  {
    var k := IndexById(emitters.rows, id);
    if k.None? {
      return Failure(BadRequest(EmitterNotFound));
    }
    if status == Rejected && (reason.None? || reason.value == "") {
      return Failure(BadRequest(RejectionReasonRequired));
    }
    var e := emitters.rows[k.value];
    var moderated := e.(status := status, rejectionReason := if status == Rejected then OrNull(reason) else None);
    ModerationFits(emitters.rows, k.value, status, reason);
    r := emitters.Save(k.value, moderated);
  }

  // ---------------------------------------------------------------- public details

  /**
   * `getPublicEmitterDetails`: an approved emitter with a running placement
   * is shown, and the visit is counted once; anything else is not found and
   * counts nothing. Looking up the placement writes back a lazy expiry.
   */
  method GetPublicEmitterDetails(emitters: EmitterTable, financial: FinancialDataTable, analitics: AnaliticsTable,
                                 subscribes: SubscribeTable, id: Id, today: Day) returns (r: Option<PublicEmitterSummary>)
    requires emitters.Valid() && analitics.Valid() && subscribes.Valid()
    modifies analitics, subscribes
    ensures analitics.Valid() && subscribes.Valid()
    ensures r.Some? <==> id < |emitters.rows| && Visible(emitters.rows[id], old(subscribes.rows), today)
    ensures r.Some? ==>
      && r.value == Summarize(Listing(emitters.rows[id], FinancialOf(financial.rows, id)))
      && analitics.rows == Bumped(old(analitics.rows), id, PageViews)
    ensures r.None? ==> analitics.rows == old(analitics.rows)
    ensures id < |emitters.rows| && emitters.rows[id].status == Approved ==>
      subscribes.rows == AfterRead(old(subscribes.rows), id, today)
    ensures !(id < |emitters.rows| && emitters.rows[id].status == Approved) ==>
      subscribes.rows == old(subscribes.rows)
  {
    var k := IndexById(emitters.rows, id);
    if k.None? || emitters.rows[k.value].status != Approved {
      return None;
    }
    var emitter := emitters.rows[k.value];
    var current := GetCurrentSubscription(subscribes, emitter.emitentId, today);
    if current.None? || current.value.paymentStatus != Active || current.value.endDate <= today {
      return None;
    }
    IncrementPageViews(analitics, emitter.emitentId);
    r := Some(Summarize(Listing(emitter, FinancialOf(financial.rows, emitter.emitentId))));
  }

  /**
   * The details page and the screener admit the same emitters: an emitter
   * has a details page exactly when the screener with no filters lists it.
   */
  lemma DetailsGateIsScreenerGate(e: Emitter, fin: Option<FinancialData>, subscribes: seq<Subscribe>, today: Day)
    ensures Visible(e, subscribes, today)
      <==> Shown(GetPublicEmittersFilterDto.Resolve(GetPublicEmittersFilterDto.NoParameters()).filters, subscribes, today, Listing(e, fin))
  {
    GetPublicEmittersFilterDto.EmptyQueryDefaults();
  }

  // ---------------------------------------------------------------- owner's profile

  /** The placement as the owner sees it. */
  datatype SubscriptionView = SubscriptionView(
    subscribeId: Id,
    tariffName: string,
    startDate: Day,
    endDate: Day,
    paymentStatus: SubscriptionStatus,
    daysRemaining: int,
    isActive: bool)

  datatype AnaliticsView = AnaliticsView(pageViews: nat, externalLinkClicks: nat)

  /** The owner's profile: every column but the password hash, with the placement and counters. */
  datatype EmitterProfile = EmitterProfile(
    emitentId: Id,
    name: string,
    email: string,
    inn: Option<string>,
    ogrnOgrnip: Option<string>,
    legalAddress: Option<string>,
    actualAddress: Option<string>,
    phone: Option<string>,
    website: Option<string>,
    description: Option<string>,
    logoUrl: Option<string>,
    status: EmitterStatus,
    rejectionReason: Option<string>,
    createdAt: int,
    subscription: Option<SubscriptionView>,
    analitics: Option<AnaliticsView>)

  /**
   * date-fns `differenceInDays(end, now)`: whole days between now, some time
   * during day `today`, and midnight opening day `end`, truncated toward zero.
   */
  function DaysRemaining(endDate: Day, today: Day): (n: int)
    requires endDate > today
    ensures 0 <= n < endDate - today
  {
    endDate - today - 1
  }

  /** `is_active`: active, and the end date is after now or on today's date. */
  predicate IsActiveOn(s: Subscribe, today: Day)
  {
    s.paymentStatus == Active && (s.endDate > today || s.endDate == today)
  }

  function ViewOf(s: Subscribe, today: Day): SubscriptionView
    requires s.endDate > today
  {
    SubscriptionView(s.subscribeId, s.tariffName, s.startDate, s.endDate, s.paymentStatus,
      DaysRemaining(s.endDate, today), IsActiveOn(s, today))
  }

  /**
   * `getEmitterProfile`: an unknown key finds nothing; otherwise the profile
   * holds every stored column but the password hash. Its placement is present
   * exactly when one is running, is then the current period, always marked
   * active, with a whole number of days left that is never negative.
   */
  method GetEmitterProfile(emitters: EmitterTable, analitics: AnaliticsTable, subscribes: SubscribeTable,
                           id: Id, today: Day) returns (r: Option<EmitterProfile>)
    requires emitters.Valid() && subscribes.Valid()
    modifies subscribes
    ensures subscribes.Valid()
    ensures r.Some? <==> id < |emitters.rows|
    ensures r.None? ==> subscribes.rows == old(subscribes.rows)
    ensures r.Some? ==> subscribes.rows == AfterRead(old(subscribes.rows), id, today)
    ensures r.Some? ==> var e := emitters.rows[id]; var p := r.value;
      && p.emitentId == id && p.name == e.name && p.email == e.email
      && p.inn == e.inn && p.ogrnOgrnip == e.ogrnOgrnip
      && p.legalAddress == e.legalAddress && p.actualAddress == e.actualAddress
      && p.phone == e.phone && p.website == e.website
      && p.description == e.description && p.logoUrl == e.logoUrl
      && p.status == e.status && p.rejectionReason == e.rejectionReason && p.createdAt == e.createdAt
    ensures r.Some? ==> var p := r.value;
      && (p.subscription.Some? <==> HasLive(old(subscribes.rows), id, today))
      && (p.subscription.Some? ==>
        var s := CurrentSubscription(old(subscribes.rows), id, today).value; var v := p.subscription.value;
        && v.subscribeId == s.subscribeId && v.tariffName == s.tariffName
        && v.startDate == s.startDate && v.endDate == s.endDate
        && v.paymentStatus == s.paymentStatus == Active
        && v.isActive
        && 0 <= v.daysRemaining == v.endDate - today - 1)
    ensures r.Some? ==> var p := r.value;
      && (p.analitics.Some? <==> id in analitics.rows)
      && (p.analitics.Some? ==>
        p.analitics.value == AnaliticsView(analitics.rows[id].pageViews, analitics.rows[id].externalLinkClicks))
  {
    var k := IndexById(emitters.rows, id);
    if k.None? {
      return None;
    }
    var e := emitters.rows[k.value];
    var current := GetCurrentSubscription(subscribes, id, today);
    var subscription := if current.Some? then Some(ViewOf(current.value, today)) else None;
    var counters := if id in analitics.rows
      then Some(AnaliticsView(analitics.rows[id].pageViews, analitics.rows[id].externalLinkClicks))
      else None;
    r := Some(EmitterProfile(e.emitentId, e.name, e.email, e.inn, e.ogrnOgrnip, e.legalAddress, e.actualAddress,
      e.phone, e.website, e.description, e.logoUrl, e.status, e.rejectionReason, e.createdAt,
      subscription, counters));
  }
}
