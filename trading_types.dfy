/**
 * The value types of the trading-rules cache: the rules stored per symbol
 * (src/types/trading.ts) and the symbol descriptors the exchange-information
 * endpoint returns (src/types/binance.ts).
 */
module TradingTypes {

  /** The six order types the application knows (trading.ts:3-9). */
  datatype OrderType = Limit | Market | StopLimit | StopMarket | Oco | TrailingStopMarket

  /** The wire tag of an order type. */
  function OrderTypeTag(t: OrderType): string
  {
    match t
    case Limit => "LIMIT"
    case Market => "MARKET"
    case StopLimit => "STOP_LIMIT"
    case StopMarket => "STOP_MARKET"
    case Oco => "OCO"
    case TrailingStopMarket => "TRAILING_STOP_MARKET"
  }

  /** Distinct order types have distinct tags. */
  lemma OrderTypeTagInjective(t: OrderType, u: OrderType)
    requires OrderTypeTag(t) == OrderTypeTag(u)
    ensures t == u
  {
  }

  /** Price granularity and bounds, kept as exact decimal text. */
  datatype PriceRules = PriceRules(tickSize: string, minPrice: string, maxPrice: string)

  /** Quantity granularity and bounds, kept as exact decimal text. */
  datatype QuantityRules = QuantityRules(stepSize: string, minQty: string, maxQty: string)

  /** One cache entry (trading.ts:33-47). */
  datatype SymbolTradingRules = SymbolTradingRules(
    symbol: string,
    priceRules: PriceRules,
    quantityRules: QuantityRules,
    minNotional: string,
    allowedOrderTypes: seq<OrderType>)

  /**
   * The closed union of filter shapes (binance.ts:63-70). The minimum-notional
   * filter carries `minNotional`, the field the cache reads.
   */
  datatype Filter =
    | PriceFilter(minPrice: string, maxPrice: string, tickSize: string)
    | LotSizeFilter(minQty: string, maxQty: string, stepSize: string)
    | MinNotionalFilter(minNotional: string, applyToMarket: bool, avgPriceMins: int)
    | MarketLotSizeFilter(minQty: string, maxQty: string, stepSize: string)
    | MaxNumOrdersFilter(limit: int)
    | MaxNumAlgoOrdersFilter(limit: int)
    | PercentPriceFilter(multiplierUp: string, multiplierDown: string, multiplierDecimal: int)

  /** The `filterType` discriminant of a filter. */
  function FilterType(f: Filter): string
  {
    match f
    case PriceFilter(_, _, _) => "PRICE_FILTER"
    case LotSizeFilter(_, _, _) => "LOT_SIZE"
    case MinNotionalFilter(_, _, _) => "MIN_NOTIONAL"
    case MarketLotSizeFilter(_, _, _) => "MARKET_LOT_SIZE"
    case MaxNumOrdersFilter(_) => "MAX_NUM_ORDERS"
    case MaxNumAlgoOrdersFilter(_) => "MAX_NUM_ALGO_ORDERS"
    case PercentPriceFilter(_, _, _) => "PERCENT_PRICE"
  }

  /**
   * The fields of one symbol descriptor that the cache reads
   * (binance.ts:72-95); the remaining descriptor fields are never consulted.
   */
  datatype SymbolDescriptor = SymbolDescriptor(
    symbol: string,
    status: string,
    orderTypes: seq<string>,
    filters: seq<Filter>)
}
