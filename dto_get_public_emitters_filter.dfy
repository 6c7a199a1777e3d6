/**
 * The query string of the public screener, `GET /emitters`: paging,
 * sorting and the optional filters, and the defaults the service fills in.
 */
module GetPublicEmittersFilterDto {
  import opened Wrappers
  import opened Validation
  import opened Ordering

  datatype GetPublicEmittersFilter = GetPublicEmittersFilter(
    page: Option<real>,
    limit: Option<real>,
    sortBy: Option<string>,
    order: Option<string>,
    ticker: Option<string>,
    companyName: Option<string>,
    market: Option<string>,
    industry: Option<string>,
    minMarketCap: Option<real>,
    maxMarketCap: Option<real>,
    minStockPrice: Option<real>,
    maxStockPrice: Option<real>,
    minTradingVolume: Option<real>,
    maxTradingVolume: Option<real>,
    hasDividends: Option<bool>,
    rating: Option<string>)

  const Markets: set<string> := {"OTCQX", "OTCQB", "Pink"}
  const Industries: set<string> := {"Technology", "Finance", "Healthcare"}
  const Ratings: set<string> := {"A", "B", "C"}
  const SortFields: set<string> := {"market_cap", "stock_price", "trading_volume", "name", "created_at"}
  const Orders: set<string> := {"ASC", "DESC"}

  /** The query with no parameter at all. */
  function NoParameters(): GetPublicEmittersFilter
  {
    GetPublicEmittersFilter(None, None, None, None, None, None, None, None, None, None, None, None, None, None, None, None)
  }

  predicate InSet(o: Option<string>, allowed: set<string>)
  {
    o.None? || o.value in allowed
  }

  predicate NonNegative(o: Option<real>)
  {
    o.None? || o.value >= 0.0
  }

  predicate Valid(d: GetPublicEmittersFilter)
  {
    && (d.page.None? || (IsInt(d.page.value) && d.page.value >= 1.0))
    && (d.limit.None? || (IsInt(d.limit.value) && 1.0 <= d.limit.value <= 100.0))
    && InSet(d.sortBy, SortFields)
    && InSet(d.order, Orders)
    && InSet(d.market, Markets)
    && InSet(d.industry, Industries)
    && InSet(d.rating, Ratings)
    && NonNegative(d.minMarketCap)
    && NonNegative(d.minStockPrice)
    && NonNegative(d.minTradingVolume)
  }

  /** The column the screener orders by. */
  datatype SortField = MarketCap | StockPrice | TradingVolume | Name | CreatedAt

  /** The optional filters of a query, each ANDed onto the listing when supplied. */
  datatype Filters = Filters(
    ticker: Option<string>,
    companyName: Option<string>,
    market: Option<string>,
    industry: Option<string>,
    minMarketCap: Option<real>,
    maxMarketCap: Option<real>,
    minStockPrice: Option<real>,
    maxStockPrice: Option<real>,
    minTradingVolume: Option<real>,
    maxTradingVolume: Option<real>,
    hasDividends: Option<bool>,
    rating: Option<string>)

  /** A validated query with every default filled in: what the service works with. */
  datatype Query = Query(page: int, limit: int, sortBy: SortField, order: SortOrder, filters: Filters)

  function SortFieldOf(s: string): SortField
  {
    match s
    case "stock_price" => StockPrice
    case "trading_volume" => TradingVolume
    case "name" => Name
    case "created_at" => CreatedAt
    case _ => MarketCap
  }

  /**
   * The defaults page 1, limit 20, `market_cap` and `DESC` fill in what is
   * absent; a supplied page and limit are whole numbers within their bounds,
   * so the query is always one the paging can serve.
   */
  function Resolve(d: GetPublicEmittersFilter): (q: Query)
    requires Valid(d)
    ensures q.page >= 1 && 1 <= q.limit <= 100
    ensures q.page as real == (if d.page.Some? then d.page.value else 1.0)
    ensures q.limit as real == (if d.limit.Some? then d.limit.value else 20.0)
    ensures d.sortBy.None? || d.sortBy == Some("market_cap") <==> q.sortBy == MarketCap
    ensures q.sortBy == Name <==> d.sortBy == Some("name")
    ensures q.sortBy == CreatedAt <==> d.sortBy == Some("created_at")
    ensures q.sortBy == StockPrice <==> d.sortBy == Some("stock_price")
    ensures q.sortBy == TradingVolume <==> d.sortBy == Some("trading_volume")
    ensures q.order == Asc <==> d.order == Some("ASC")
    ensures q.filters == Filters(d.ticker, d.companyName, d.market, d.industry,
      d.minMarketCap, d.maxMarketCap, d.minStockPrice, d.maxStockPrice,
      d.minTradingVolume, d.maxTradingVolume, d.hasDividends, d.rating)
  {
    Query(
      if d.page.Some? then d.page.value.Floor else 1,
      if d.limit.Some? then d.limit.value.Floor else 20,
      if d.sortBy.Some? then SortFieldOf(d.sortBy.value) else MarketCap,
      if d.order == Some("ASC") then Asc else Desc,
      Filters(d.ticker, d.companyName, d.market, d.industry,
        d.minMarketCap, d.maxMarketCap, d.minStockPrice, d.maxStockPrice,
        d.minTradingVolume, d.maxTradingVolume, d.hasDividends, d.rating))
  }

  /** The empty query is valid and means: first page of 20, largest market capitalisation first. */
  lemma EmptyQueryDefaults()
    ensures Valid(NoParameters())
    ensures var q := Resolve(NoParameters());
      q.page == 1 && q.limit == 20 && q.sortBy == MarketCap && q.order == Desc
  {
  }

  /**
   * There is no cross-field rule: any non-negative minimum with any maximum,
   * even a smaller or a negative one, is accepted.
   */
  lemma BoundsAreIndependent(d: GetPublicEmittersFilter, lo: real, hi: real)
    requires Valid(d) && lo >= 0.0
    ensures Valid(d.(minMarketCap := Some(lo), maxMarketCap := Some(hi)))
    ensures Valid(d.(minStockPrice := Some(lo), maxStockPrice := Some(hi)))
    ensures Valid(d.(minTradingVolume := Some(lo), maxTradingVolume := Some(hi)))
  {
  }

  /** A negative minimum is refused. */
  lemma NegativeMinimumIsRefused(d: GetPublicEmittersFilter, lo: real)
    requires lo < 0.0
    ensures !Valid(d.(minMarketCap := Some(lo)))
    ensures !Valid(d.(minStockPrice := Some(lo)))
    ensures !Valid(d.(minTradingVolume := Some(lo)))
  {
  }
}
