/**
 * `PublicEmittersController`: the public details page and the recording of
 * an investor's interest in an emitter.
 */
module PublicEmittersController {
  import opened Wrappers
  import opened Entities
  import opened Store
  import opened AnaliticsService
  import opened InvestorsService
  import opened SubscribesService
  import opened TrackInvestorInterestDto
  import opened PublicScreener
  import EmittersService

  /** The answer to a recorded interest. */
  const InterestRecorded: string := "Интерес инвестора успешно зафиксирован."

  /**
   * `getPublicEmitterDetails`: an emitter the service does not show (unknown,
   * not approved, or without a running placement) is a bad request; a shown
   * one counts one page view. Looking up an approved emitter's placement
   * writes back its lazy expiry; nothing else touches the ledger.
   */
  method GetPublicEmitterDetails(emitters: EmitterTable, financial: FinancialDataTable, analitics: AnaliticsTable,
                                 subscribes: SubscribeTable, id: Id, today: Day) returns (r: Result<PublicEmitterSummary, Error>)
    requires emitters.Valid() && analitics.Valid() && subscribes.Valid()
    modifies analitics, subscribes
    ensures analitics.Valid() && subscribes.Valid()
    ensures r.Success? <==> id < |emitters.rows| && Visible(emitters.rows[id], old(subscribes.rows), today)
    ensures r.Failure? ==> r.error == BadRequest(NotFoundOrNotApproved) && analitics.rows == old(analitics.rows)
    ensures r.Success? ==>
      && r.value == Summarize(Listing(emitters.rows[id], FinancialOf(financial.rows, id)))
      && analitics.rows == Bumped(old(analitics.rows), id, PageViews)
    ensures id < |emitters.rows| && emitters.rows[id].status == Approved ==>
      subscribes.rows == AfterRead(old(subscribes.rows), id, today)
    ensures !(id < |emitters.rows| && emitters.rows[id].status == Approved) ==>
      subscribes.rows == old(subscribes.rows)
  {
    var details := EmittersService.GetPublicEmitterDetails(emitters, financial, analitics, subscribes, id, today);
    if details.None? {
      return Failure(BadRequest(NotFoundOrNotApproved));
    }
    r := Success(details.value);
  }

  /**
   * `trackInvestorInterest`: for an unknown emitter it is a bad request and
   * nothing changes. Otherwise the investor is recorded (by email) and the
   * emitter's external link clicks go up by one; page views never change.
   * Only existence is checked: interest in an emitter that is not approved,
   * or has no running placement, is recorded too.
   */
  method TrackInvestorInterest(emitters: EmitterTable, investors: InvestorTable, analitics: AnaliticsTable,
                               id: Id, d: TrackInvestorInterest) returns (r: Result<string, Error>)
    requires emitters.Valid() && investors.Valid() && analitics.Valid()
    modifies investors, analitics
    ensures investors.Valid() && analitics.Valid()
    ensures id >= |emitters.rows| ==>
      && r == Failure(BadRequest(EmitterNotFound))
      && investors.rows == old(investors.rows)
      && analitics.rows == old(analitics.rows)
    ensures id < |emitters.rows| ==>
      && r == Success(InterestRecorded)
      && investors.rows == Upsert(old(investors.rows), d)
      && analitics.rows == Bumped(old(analitics.rows), id, ExternalLinkClicks)
    ensures analitics.rows.Keys == old(analitics.rows).Keys
    ensures forall k :: k in old(analitics.rows) ==> analitics.rows[k].pageViews == old(analitics.rows)[k].pageViews
  {
    var emitter := EmittersService.FindById(emitters.rows, id);
    if emitter.None? {
      return Failure(BadRequest(EmitterNotFound));
    }
    var _ := CreateInvestorInterest(investors, d);
    IncrementExternalLinkClicks(analitics, id);
    r := Success(InterestRecorded);
  }
}
