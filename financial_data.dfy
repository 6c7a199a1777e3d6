/** `FinancialDataService`: the financial record every new emitter starts with. */
module FinancialDataService {
  import opened Wrappers
  import opened Entities
  import opened Store

  /** The public status a new company shows until its data is filled in. */
  const Inactive: string := "Неактивна"

  /** The record `createInitialFinancialData` stores: only the key, the dividends flag and the status are set. */
  function InitialFinancialData(emitentId: Id): FinancialData
  {
    FinancialData(emitentId, None, None, None, None, None, None, None, false, None, Some(Inactive))
  }

  /**
   * `createInitialFinancialData`: a record for `emitentId` with no dividends,
   * status "Неактивна" and every other column NULL. A second record for the
   * same emitter violates the unique `emitent_id` column and is refused.
   */
  method CreateInitialFinancialData(financial: FinancialDataTable, emitentId: Id) returns (r: Result<FinancialData, Error>)
    requires financial.Valid()
    modifies financial
    ensures financial.Valid()
    ensures r.Success? <==> emitentId !in old(financial.rows)
    ensures r.Success? ==> financial.rows == old(financial.rows)[emitentId := r.value]
    ensures r.Success? ==> r.value == InitialFinancialData(emitentId)
    ensures r.Success? ==> var f := r.value;
      && f.emitentId == emitentId && !f.hasDividends && f.companyStatus == Some("Неактивна")
      && f.ticker.None? && f.companyName.None? && f.market.None? && f.industry.None?
      && f.marketCap.None? && f.stockPrice.None? && f.tradingVolume.None? && f.rating.None?
    ensures r.Failure? ==> r.error == InternalServerError(UniqueViolation) && financial.rows == old(financial.rows)
  {
    if emitentId in financial.rows {
      return Failure(InternalServerError(UniqueViolation));
    }
    var f := InitialFinancialData(emitentId);
    financial.rows := financial.rows[emitentId := f];
    r := Success(f);
  }
}
