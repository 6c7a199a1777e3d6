/**
 * The public screener behind `getPublicEmitters`: the join of emitters with
 * their financial data, the visibility gate, the optional filters, the
 * ordering and the page. The query builder is read as the relational query it
 * builds.
 */
module PublicScreener {
  import opened Wrappers
  import opened Entities
  import opened Collections
  import opened Ordering
  import opened Paging
  import opened SubscribesService
  import opened GetPublicEmittersFilterDto

  /** An emitter with its left-joined financial record (absent: every column NULL). */
  datatype Listing = Listing(emitter: Emitter, fin: Option<FinancialData>)

  /** One row of the public list. Financial columns are absent when the emitter has no financial record. */
  datatype PublicEmitterSummary = PublicEmitterSummary(
    emitentId: Id,
    name: string,
    description: Option<string>,
    logoUrl: Option<string>,
    ticker: Option<string>,
    market: Option<string>,
    industry: Option<string>,
    marketCap: Option<real>,
    stockPrice: Option<real>,
    tradingVolume: Option<real>,
    hasDividends: Option<bool>,
    rating: Option<string>,
    companyStatus: Option<string>)

  function FinancialOf(financial: map<Id, FinancialData>, emitentId: Id): Option<FinancialData>
  {
    if emitentId in financial then Some(financial[emitentId]) else None
  }

  /** `leftJoinAndSelect('emitter.financialData', …)`: one listing per emitter row. */
  function Joined(emitters: seq<Emitter>, financial: map<Id, FinancialData>): (r: seq<Listing>)
    ensures |r| == |emitters|
    ensures forall k :: 0 <= k < |r| ==> r[k] == Listing(emitters[k], FinancialOf(financial, emitters[k].emitentId))
  {
    seq(|emitters|, k requires 0 <= k < |emitters| => Listing(emitters[k], FinancialOf(financial, emitters[k].emitentId)))
  }

  // The joined financial columns; NULL when the record is missing.
  function Ticker(l: Listing): Option<string> { if l.fin.Some? then l.fin.value.ticker else None }
  function Market(l: Listing): Option<string> { if l.fin.Some? then l.fin.value.market else None }
  function Industry(l: Listing): Option<string> { if l.fin.Some? then l.fin.value.industry else None }
  function MarketCap(l: Listing): Option<real> { if l.fin.Some? then l.fin.value.marketCap else None }
  function StockPrice(l: Listing): Option<real> { if l.fin.Some? then l.fin.value.stockPrice else None }
  function TradingVolume(l: Listing): Option<real> { if l.fin.Some? then l.fin.value.tradingVolume else None }
  function HasDividends(l: Listing): Option<bool> { if l.fin.Some? then Some(l.fin.value.hasDividends) else None }
  function Rating(l: Listing): Option<string> { if l.fin.Some? then l.fin.value.rating else None }
  function CompanyStatus(l: Listing): Option<string> { if l.fin.Some? then l.fin.value.companyStatus else None }

  /** The summary `getPublicEmitters` and `getPublicEmitterDetails` build with `financialData?.…`. */
  function Summarize(l: Listing): PublicEmitterSummary
  {
    PublicEmitterSummary(l.emitter.emitentId, l.emitter.name, l.emitter.description, l.emitter.logoUrl,
      Ticker(l), Market(l), Industry(l), MarketCap(l), StockPrice(l), TradingVolume(l),
      HasDividends(l), Rating(l), CompanyStatus(l))
  }

  function Summaries(ls: seq<Listing>): (r: seq<PublicEmitterSummary>)
    ensures |r| == |ls| && forall i :: 0 <= i < |ls| ==> r[i] == Summarize(ls[i])
  {
    seq(|ls|, i requires 0 <= i < |ls| => Summarize(ls[i]))
  }

  /** The mandatory gate: approved, with an active subscription whose end date has not passed. */
  predicate Visible(e: Emitter, subscribes: seq<Subscribe>, today: Day)
  {
    e.status == Approved && HasLive(subscribes, e.emitentId, today)
  }

  /** The database's `lower()`, for Latin and Russian letters. */
  function LowerChar(c: char): char
  {
    if 'A' <= c <= 'Z' || 'А' <= c <= 'Я' then (c as int + 32) as char
    else if c == 'Ё' then 'ё'
    else c
  }

  function Lower(s: string): (r: string)
    ensures |r| == |s| && forall i :: 0 <= i < |s| ==> r[i] == LowerChar(s[i])
  {
    seq(|s|, i requires 0 <= i < |s| => LowerChar(s[i]))
  }

  predicate OccursAt(haystack: string, needle: string, i: int)
  {
    0 <= i <= |haystack| - |needle| && haystack[i..i + |needle|] == needle
  }

  predicate Contains(haystack: string, needle: string)
  {
    exists i :: 0 <= i <= |haystack| - |needle| && OccursAt(haystack, needle, i)
  }

  /** `column ILIKE '%needle%'`: NULL never matches. */
  predicate ILike(column: Option<string>, needle: string)
  {
    column.Some? && Contains(Lower(column.value), Lower(needle))
  }

  // A text or enum filter is applied when truthy (`if (ticker)`), so an empty
  // string is no filter; bounds and the dividends flag when not `undefined`.
  predicate TextFilter(f: Option<string>, column: Option<string>) { f.None? || f.value == "" || ILike(column, f.value) }
  predicate EqFilter(f: Option<string>, column: Option<string>) { f.None? || f.value == "" || column == Some(f.value) }
  predicate MinFilter(f: Option<real>, column: Option<real>) { f.None? || (column.Some? && column.value >= f.value) }
  predicate MaxFilter(f: Option<real>, column: Option<real>) { f.None? || (column.Some? && column.value <= f.value) }
  predicate BoolFilter(f: Option<bool>, column: Option<bool>) { f.None? || column == f }

  /** Every supplied filter holds of the listing. */
  predicate Matches(f: Filters, l: Listing)
  {
    && TextFilter(f.ticker, Ticker(l))
    && TextFilter(f.companyName, Some(l.emitter.name))
    && EqFilter(f.market, Market(l))
    && EqFilter(f.industry, Industry(l))
    && MinFilter(f.minMarketCap, MarketCap(l))
    && MaxFilter(f.maxMarketCap, MarketCap(l))
    && MinFilter(f.minStockPrice, StockPrice(l))
    && MaxFilter(f.maxStockPrice, StockPrice(l))
    && MinFilter(f.minTradingVolume, TradingVolume(l))
    && MaxFilter(f.maxTradingVolume, TradingVolume(l))
    && BoolFilter(f.hasDividends, HasDividends(l))
    && EqFilter(f.rating, Rating(l))
  }

  predicate Shown(f: Filters, subscribes: seq<Subscribe>, today: Day, l: Listing)
  {
    Visible(l.emitter, subscribes, today) && Matches(f, l)
  }

  function ShownBy(f: Filters, subscribes: seq<Subscribe>, today: Day): Listing -> bool
  {
    (l: Listing) => Shown(f, subscribes, today, l)
  }

  /** The ORDER BY column: financial ones from the joined record, `name` and `created_at` from the emitter. */
  function KeyOf(s: SortField): Listing -> SortKey
  {
    match s
    case MarketCap => (l: Listing) => Amount(MarketCap(l))
    case StockPrice => (l: Listing) => Amount(StockPrice(l))
    case TradingVolume => (l: Listing) => Amount(TradingVolume(l))
    case Name => (l: Listing) => Text(l.emitter.name)
    case CreatedAt => (l: Listing) => Moment(l.emitter.createdAt)
  }

  /** All shown listings, in the requested order. */
  function Ranked(emitters: seq<Emitter>, financial: map<Id, FinancialData>, subscribes: seq<Subscribe>,
                  q: Query, today: Day): seq<Listing>
  {
    Sort(Filter(Joined(emitters, financial), ShownBy(q.filters, subscribes, today)), KeyOf(q.sortBy), q.order)
  }

  /** Each ranked listing is the listing of some emitter row `k`, and a shown one. */
  lemma RankedAreShown(emitters: seq<Emitter>, financial: map<Id, FinancialData>, subscribes: seq<Subscribe>,
                       q: Query, today: Day, m: nat) returns (k: nat)
    requires m < |Ranked(emitters, financial, subscribes, q, today)|
    ensures k < |emitters|
    ensures Shown(q.filters, subscribes, today, Joined(emitters, financial)[k])
    ensures Ranked(emitters, financial, subscribes, q, today)[m] == Joined(emitters, financial)[k]
  {
    var joined := Joined(emitters, financial);
    var ranked := Ranked(emitters, financial, subscribes, q, today);
    var l := ranked[m];
    assert l in multiset(ranked);
    assert l in Filter(joined, ShownBy(q.filters, subscribes, today));
    k :| 0 <= k < |joined| && joined[k] == l;
  }

  /** Every listing on a page of the ranking is the listing of a shown emitter row. */
  lemma PageIsShown(emitters: seq<Emitter>, financial: map<Id, FinancialData>, subscribes: seq<Subscribe>,
                    q: Query, today: Day)
    requires q.page >= 1 && q.limit >= 1
    ensures forall i :: 0 <= i < |PageOf(Ranked(emitters, financial, subscribes, q, today), q.page, q.limit)| ==> exists k ::
      && 0 <= k < |emitters|
      && Shown(q.filters, subscribes, today, Joined(emitters, financial)[k])
      && PageOf(Ranked(emitters, financial, subscribes, q, today), q.page, q.limit)[i] == Joined(emitters, financial)[k]
  {
    var shown := Filter(Joined(emitters, financial), ShownBy(q.filters, subscribes, today));
    var ranked := Ranked(emitters, financial, subscribes, q, today);
    assert |ranked| == |shown|;
    var page := PageOf(ranked, q.page, q.limit);
    forall i | 0 <= i < |page|
      ensures exists k ::
        && 0 <= k < |emitters|
        && Shown(q.filters, subscribes, today, Joined(emitters, financial)[k])
        && page[i] == Joined(emitters, financial)[k]
    {
      var k := RankedAreShown(emitters, financial, subscribes, q, today, Offset(q.page, q.limit) + i);
      assert page[i] == Joined(emitters, financial)[k];
    }
  }

  /**
   * `getPublicEmitters`: one page of the shown emitters, at most `limit` of
   * them, each an approved emitter with a running subscription that passes
   * every filter; `total` counts every shown emitter whatever the page; the
   * page and limit are echoed. Which emitters, in which order, is stated by
   * `PageIsRankedSlice`.
   */
  function GetPublicEmitters(emitters: seq<Emitter>, financial: map<Id, FinancialData>, subscribes: seq<Subscribe>,
                             q: Query, today: Day): (r: PageResult<PublicEmitterSummary>)
    requires q.page >= 1 && q.limit >= 1
    ensures r.page == q.page && r.limit == q.limit && |r.data| <= q.limit
    ensures r.total == Count(Joined(emitters, financial), ShownBy(q.filters, subscribes, today))
    ensures forall i :: 0 <= i < |r.data| ==> exists k ::
      && 0 <= k < |emitters|
      && Shown(q.filters, subscribes, today, Joined(emitters, financial)[k])
      && r.data[i] == Summarize(Joined(emitters, financial)[k])
  {
    PageIsShown(emitters, financial, subscribes, q, today);
    var ranked := Ranked(emitters, financial, subscribes, q, today);
    PageResult(Summaries(PageOf(ranked, q.page, q.limit)), |ranked|, q.page, q.limit)
  }

  /**
   * The page is the ranking sliced at the offset: its `i`-th entry
   * summarises the listing at position `(page - 1) * limit + i` of the shown
   * listings in the requested order.
   */
  lemma PageIsRankedSlice(emitters: seq<Emitter>, financial: map<Id, FinancialData>, subscribes: seq<Subscribe>,
                          q: Query, today: Day, i: nat)
    requires q.page >= 1 && q.limit >= 1 && i < |GetPublicEmitters(emitters, financial, subscribes, q, today).data|
    ensures Offset(q.page, q.limit) + i < |Ranked(emitters, financial, subscribes, q, today)|
    ensures GetPublicEmitters(emitters, financial, subscribes, q, today).data[i]
      == Summarize(Ranked(emitters, financial, subscribes, q, today)[Offset(q.page, q.limit) + i])
  {
  }

  /** The shown listings come out ordered by the requested column and direction, none lost or repeated. */
  lemma RankedIsOrdered(emitters: seq<Emitter>, financial: map<Id, FinancialData>, subscribes: seq<Subscribe>, q: Query, today: Day)
    ensures SortedBy(Ranked(emitters, financial, subscribes, q, today), KeyOf(q.sortBy), q.order)
    ensures multiset(Ranked(emitters, financial, subscribes, q, today))
      == multiset(Filter(Joined(emitters, financial), ShownBy(q.filters, subscribes, today)))
  {
    SortSorted(Filter(Joined(emitters, financial), ShownBy(q.filters, subscribes, today)), KeyOf(q.sortBy), q.order);
  }

  /** Where a shown listing stands in the ranking. */
  lemma PositionInRanking(emitters: seq<Emitter>, financial: map<Id, FinancialData>, subscribes: seq<Subscribe>,
                          q: Query, today: Day, k: nat) returns (m: nat)
    requires k < |emitters| && Shown(q.filters, subscribes, today, Joined(emitters, financial)[k])
    ensures m < |Ranked(emitters, financial, subscribes, q, today)|
    ensures Ranked(emitters, financial, subscribes, q, today)[m] == Joined(emitters, financial)[k]
  {
    var l := Joined(emitters, financial)[k];
    var ranked := Ranked(emitters, financial, subscribes, q, today);
    assert l in Filter(Joined(emitters, financial), ShownBy(q.filters, subscribes, today));
    assert l in multiset(ranked);
    m :| 0 <= m < |ranked| && ranked[m] == l;
  }

  /** Every shown emitter is on some page of the same query. */
  lemma EveryShownEmitterIsOnAPage(emitters: seq<Emitter>, financial: map<Id, FinancialData>, subscribes: seq<Subscribe>,
                                   q: Query, today: Day, k: nat)
    requires q.page >= 1 && q.limit >= 1 && k < |emitters|
    requires Shown(q.filters, subscribes, today, Joined(emitters, financial)[k])
    ensures exists p ::
      && p >= 1
      && Summarize(Joined(emitters, financial)[k]) in GetPublicEmitters(emitters, financial, subscribes, q.(page := p), today).data
  {
    var m := PositionInRanking(emitters, financial, subscribes, q, today, k);
    var ranked := Ranked(emitters, financial, subscribes, q, today);
    var p, slot := EveryRowOnItsPage(ranked, q.limit, m);
    var page := PageOf(ranked, p, q.limit);
    assert Ranked(emitters, financial, subscribes, q.(page := p), today) == ranked;
    var r := GetPublicEmitters(emitters, financial, subscribes, q.(page := p), today);
    assert r.data == Summaries(page);
    assert r.data[slot] == Summarize(Joined(emitters, financial)[k]);
  }

  /** The total does not depend on which page is asked for or how long pages are. */
  lemma TotalIgnoresPaging(emitters: seq<Emitter>, financial: map<Id, FinancialData>, subscribes: seq<Subscribe>,
                           q: Query, today: Day, page: int, limit: int)
    requires q.page >= 1 && q.limit >= 1 && page >= 1 && limit >= 1
    ensures GetPublicEmitters(emitters, financial, subscribes, q.(page := page, limit := limit), today).total
      == GetPublicEmitters(emitters, financial, subscribes, q, today).total
  {
  }

  /**
   * A company whose financial record is still the initial one passes a
   * financial filter only when that filter is absent or empty, or asks for no
   * dividends: until its data is filled in it is found by name alone.
   */
  lemma InitialRecordMatchesNoFinancialFilter(e: Emitter, f: Filters)
    requires Matches(f, Listing(e, Some(FinancialData(e.emitentId, None, None, None, None, None, None, None, false, None, Some("Неактивна")))))
    ensures f.ticker.None? || f.ticker == Some("")
    ensures f.market.None? || f.market == Some("")
    ensures f.industry.None? || f.industry == Some("")
    ensures f.rating.None? || f.rating == Some("")
    ensures f.minMarketCap.None? && f.maxMarketCap.None?
    ensures f.minStockPrice.None? && f.maxStockPrice.None?
    ensures f.minTradingVolume.None? && f.maxTradingVolume.None?
    ensures f.hasDividends != Some(true)
  {
  }
}
