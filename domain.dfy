/** The data the order logic passes around: order kinds, the exception
    taxonomy, the dictionaries sent to and logged about the exchange, the
    exchange's symbol filters and its order receipts. */
module Domain {
  import opened Wrappers

  /** The abstract order kinds `validate_order_type` accepts. */
  datatype OrderKind = Market | Limit | StopLimit | Oco | Twap | Grid

  /** How a value breaks one exchange filter (LOT_SIZE or PRICE_FILTER). */
  datatype Violation =
    | BelowMin(minimum: real)
    | AboveMax(maximum: real)
    | OffStep(step: real, suggested: real)  // not a multiple of step; `suggested` is the largest multiple below

  /** Why a `ValidationError` was raised, tagged by the offending field or rule. */
  datatype Reason =
    | EmptySymbol
    | SymbolFormat(symbol: string)
    | EmptySide
    | UnknownSide(side: string)
    | EmptyOrderType
    | UnknownOrderType(orderType: string)
    | QuantityNotPositive
    | QuantityTooSmall
    | QuantityFilter(violation: Violation)
    | PriceNotPositive
    | PriceFilter(violation: Violation)
    | UnknownTimeInForce(timeInForce: string)
    | PriceRequired(kind: OrderKind)
    | StopPriceRequired(kind: OrderKind)
    | MarketWithPrice
    | NotNative(kind: OrderKind)
    | StrategySide(side: string)         // a strategy's buy/sell dispatch found neither
    | DurationNotPositive
    | TotalNotPositive
    | TwapLimitWithoutPrice
    | PriceRangeEmpty
    | LevelsNotPositive
    | GridWithMarket

  /** The exceptions that can leave the order logic. */
  datatype Error =
    | ValidationError(reason: Reason)
    | ApiError(code: int)                // BinanceAPIException
    | RequestError                       // requests.RequestException: a transport failure
    | ZeroDivisionError
    | SleepValueError                    // time.sleep given a negative length
    | ReraiseNoneError                   // `raise None`, a TypeError
    | DuplicateArgumentError             // a keyword argument naming a parameter already given, a TypeError

  /** A JSON-like value: what the request, response and log dictionaries hold. */
  datatype Value =
    | Str(s: string)
    | Num(x: real)
    | Int(i: int)
    | Bool(b: bool)
    | Null
    | Dict(fields: map<string, Value>)

  /** The keyword arguments of one `futures_create_order` call. */
  type Request = map<string, Value>

  /** One entry of `symbolInfo.filters`; `filterType` is "" when the key is missing. */
  datatype Filter = Filter(filterType: string, params: map<string, real>)

  /** The part of the exchange's symbol description the validators read. */
  datatype SymbolInfo = SymbolInfo(symbol: string, filters: seq<Filter>)

  /** An `OrderResponse`: the exchange's receipt for one placed order. */
  datatype Receipt = Receipt(
    orderId: int,
    symbol: string,
    status: string,
    side: string,
    orderType: string,
    quantity: real,
    price: Option<real>,
    stopPrice: Option<real>,
    timeInForce: Option<string>,
    executedQty: real,
    avgPrice: Option<real>,
    clientOrderId: Option<string>,
    transactTime: int)

  /** The fields OCO reads from a raw `futures_create_order` reply; `None` for a missing key. */
  datatype RawReply = RawReply(
    orderId: Option<int>,
    status: Option<string>,
    executedQty: Option<real>,
    avgPrice: Option<real>,
    updateTime: Option<int>)
}
