/** Order validation and normalisation: the per-field checks, the exchange
    filter checks, the cross-field rules, the mapping of abstract order kinds
    to the exchange's native ones, and the assembly of the request dictionary. */
module Validators {
  import opened Wrappers
  import opened Text
  import opened Domain

  /** MIN_QUANTITY: the global floor below which no quantity is accepted. */
  const MinQuantity: real := 0.000001

  /** DEFAULT_TIME_IN_FORCE. */
  const DefaultTimeInForce: string := "GTC"

  /** SYMBOL_PATTERN `^[A-Z0-9]{6,12}$`. */
  predicate SymbolPattern(s: string) {
    6 <= |s| <= 12 && forall i :: 0 <= i < |s| ==> ('A' <= s[i] <= 'Z' || '0' <= s[i] <= '9')
  }

  // ---------------------------------------------------------------------
  // Per-field checks
  // ---------------------------------------------------------------------

  /** validate_symbol: empty input is refused; otherwise the upper-cased,
      trimmed symbol is returned when it matches SYMBOL_PATTERN. */
  function ValidateSymbol(symbol: string): (r: Result<string, Error>)
    ensures symbol == "" ==> r == Err(ValidationError(EmptySymbol))
    ensures r.Ok? <==> symbol != "" && SymbolPattern(Strip(Upper(symbol)))
    ensures r.Ok? ==> r.value == Strip(Upper(symbol))
    ensures r.Err? ==> r.error.ValidationError?
  {
    if symbol == "" then Err(ValidationError(EmptySymbol))
    else
      var s := Strip(Upper(symbol));
      if SymbolPattern(s) then Ok(s) else Err(ValidationError(SymbolFormat(s)))
  }

  /** A validated symbol validates to itself. */
  lemma ValidateSymbolIdempotent(symbol: string)
    requires ValidateSymbol(symbol).Ok?
    ensures ValidateSymbol(ValidateSymbol(symbol).value) == ValidateSymbol(symbol)
  {
    NormalizeCanonical(ValidateSymbol(symbol).value);
  }

  /** A symbol that already matches the pattern is accepted unchanged. */
  lemma CanonicalSymbolAccepted(symbol: string)
    requires SymbolPattern(symbol)
    ensures ValidateSymbol(symbol) == Ok(symbol)
  {
    assert Canonical(symbol);
    NormalizeCanonical(symbol);
  }

  /** Symbol validation does not depend on letter case. */
  lemma ValidateSymbolCaseInsensitive(symbol: string)
    ensures ValidateSymbol(Upper(symbol)) == ValidateSymbol(symbol)
  {
    assert Upper(Upper(symbol)) == Upper(symbol);
  }

  /** validate_side: the upper-cased, trimmed side must be BUY or SELL. */
  function ValidateSide(side: string): (r: Result<string, Error>)
    ensures side == "" ==> r == Err(ValidationError(EmptySide))
    ensures r.Ok? <==> side != "" && Strip(Upper(side)) in {"BUY", "SELL"}
    ensures r.Ok? ==> r.value == Strip(Upper(side))
    ensures r.Err? ==> r.error.ValidationError?
  {
    if side == "" then Err(ValidationError(EmptySide))
    else
      var s := Strip(Upper(side));
      if s in {"BUY", "SELL"} then Ok(s) else Err(ValidationError(UnknownSide(s)))
  }

  /** The two accepted sides are returned as they are. */
  lemma ValidateSideFixesCanonical(side: string)
    requires side in {"BUY", "SELL"}
    ensures ValidateSide(side) == Ok(side)
  {
    NormalizeCanonical(side);
  }

  /** The name `validate_order_type` accepts for each kind. */
  function KindName(kind: OrderKind): string {
    match kind
    case Market => "MARKET"
    case Limit => "LIMIT"
    case StopLimit => "STOP_LIMIT"
    case Oco => "OCO"
    case Twap => "TWAP"
    case Grid => "GRID"
  }

  /** The kind a normalised order-type name denotes, if any. */
  function KindOf(name: string): (r: Option<OrderKind>)
    ensures r.Some? ==> KindName(r.value) == name
    ensures r.Some? <==> name in {"MARKET", "LIMIT", "STOP_LIMIT", "OCO", "TWAP", "GRID"}
  {
    if name == "MARKET" then Some(Market)
    else if name == "LIMIT" then Some(Limit)
    else if name == "STOP_LIMIT" then Some(StopLimit)
    else if name == "OCO" then Some(Oco)
    else if name == "TWAP" then Some(Twap)
    else if name == "GRID" then Some(Grid)
    else None
  }

  /** validate_order_type: the upper-cased, trimmed type must name one of the six kinds. */
  function ValidateOrderType(orderType: string): (r: Result<OrderKind, Error>)
    ensures orderType == "" ==> r == Err(ValidationError(EmptyOrderType))
    ensures orderType != "" ==>
      (r.Ok? <==> Strip(Upper(orderType)) in {"MARKET", "LIMIT", "STOP_LIMIT", "OCO", "TWAP", "GRID"})
    ensures r.Ok? ==> KindName(r.value) == Strip(Upper(orderType))
    ensures r.Err? ==> r.error.ValidationError?
  {
    if orderType == "" then Err(ValidationError(EmptyOrderType))
    else
      var t := Strip(Upper(orderType));
      match KindOf(t)
      case Some(kind) => Ok(kind)
      case None => Err(ValidationError(UnknownOrderType(t)))
  }

  /** Upper-case letters, digits and underscores: what `upper()` and `strip()` leave alone. */
  predicate Canonical(s: string) {
    forall i :: 0 <= i < |s| ==> ('A' <= s[i] <= 'Z' || '0' <= s[i] <= '9' || s[i] == '_')
  }

  lemma NormalizeCanonical(s: string)
    requires Canonical(s)
    ensures Strip(Upper(s)) == s
  {
    UpperNoop(s);
    if s != [] {
      assert !IsSpace(s[0]) && !IsSpace(s[|s| - 1]);
    }
    StripNoop(s);
  }

  /** Every kind's name validates back to that kind. */
  lemma OrderTypeRoundTrip(kind: OrderKind)
    ensures ValidateOrderType(KindName(kind)) == Ok(kind)
  {
    var name := KindName(kind);
    assert Canonical(name) && KindOf(name) == Some(kind) by {
      match kind
      case Market =>
      case Limit =>
      case StopLimit =>
      case Oco =>
      case Twap => assert name[0] != "MARKET"[0];
      case Grid => assert name[0] != "TWAP"[0];
    }
    NormalizeCanonical(name);
  }

  /** validate_time_in_force: absent or empty means GTC; otherwise GTC, IOC or FOK. */
  function ValidateTimeInForce(timeInForce: Option<string>): (r: Result<string, Error>)
    ensures (timeInForce.None? || timeInForce.value == "") ==> r == Ok(DefaultTimeInForce)
    ensures r.Ok? ==> r.value in {"GTC", "IOC", "FOK"}
    ensures r.Err? ==> r.error.ValidationError?
    ensures timeInForce.Some? && timeInForce.value != "" ==>
      (r.Ok? <==> Strip(Upper(timeInForce.value)) in {"GTC", "IOC", "FOK"})
  {
    if timeInForce.None? || timeInForce.value == "" then Ok(DefaultTimeInForce)
    else
      var t := Strip(Upper(timeInForce.value));
      if t in {"GTC", "IOC", "FOK"} then Ok(t) else Err(ValidationError(UnknownTimeInForce(t)))
  }

  /** A validated time in force validates to itself. */
  lemma ValidateTimeInForceIdempotent(timeInForce: Option<string>)
    requires ValidateTimeInForce(timeInForce).Ok?
    ensures ValidateTimeInForce(Some(ValidateTimeInForce(timeInForce).value)) == ValidateTimeInForce(timeInForce)
  {
    NormalizeCanonical(ValidateTimeInForce(timeInForce).value);
  }

  // ---------------------------------------------------------------------
  // Exchange filters
  // ---------------------------------------------------------------------

  /** The position of the first filter of the given type, or |filters| if none. */
  function FirstIndex(filters: seq<Filter>, filterType: string): (k: nat)
    ensures k <= |filters|
    ensures forall j :: 0 <= j < k ==> filters[j].filterType != filterType
    ensures k < |filters| ==> filters[k].filterType == filterType
  {
    if filters == [] || filters[0].filterType == filterType then 0
    else 1 + FirstIndex(filters[1..], filterType)
  }

  /** The first filter of the given type; later filters of that type are ignored. */
  function FirstFilter(filters: seq<Filter>, filterType: string): (f: Option<Filter>)
    ensures f.None? <==> forall j :: 0 <= j < |filters| ==> filters[j].filterType != filterType
    ensures f.Some? ==> f.value.filterType == filterType
  {
    var k := FirstIndex(filters, filterType);
    if k < |filters| then Some(filters[k]) else None
  }

  /** The loop-and-break search of validate_quantity / validate_price. */
  method FindFilter(filters: seq<Filter>, filterType: string) returns (found: Option<Filter>)
    ensures found == FirstFilter(filters, filterType)
  {
    found := None;
    var i := 0;
    while i < |filters|
      invariant 0 <= i <= |filters|
      invariant forall j :: 0 <= j < i ==> filters[j].filterType != filterType
    {
      if filters[i].filterType == filterType {
        found := Some(filters[i]);
        break;
      }
      i := i + 1;
    }
  }

  /** Decimal's quotient `//`, which truncates toward zero. */
  function Trunc(x: real): int {
    if x >= 0.0 then x.Floor else -((-x).Floor)
  }

  /** Decimal's remainder `%`, which takes the sign of the dividend. */
  function DecimalRemainder(x: real, m: real): real
    requires m != 0.0
  {
    x - Trunc(x / m) as real * m
  }

  /** x is an exact (integer) multiple of m. */
  ghost predicate IsMultipleOf(x: real, m: real) {
    exists k: int :: x == Times(k, m)
  }

  function Times(k: int, m: real): real {
    k as real * m
  }

  /** For positive operands the Decimal remainder is zero exactly on multiples. */
  lemma RemainderZeroIffMultiple(x: real, m: real)
    requires x > 0.0 && m > 0.0
    ensures DecimalRemainder(x, m) == 0.0 <==> IsMultipleOf(x, m)
  {
    var q := x / m;
    assert q * m == x;
    assert q > 0.0;
    if DecimalRemainder(x, m) == 0.0 {
      assert x == Times(Trunc(q), m);
    }
    if IsMultipleOf(x, m) {
      var k: int :| x == Times(k, m);
      assert (k as real - q) * m == 0.0;
      assert q == k as real;
      assert Trunc(q) == k;
    }
  }

  /** The suggestion `(x // m) * m` is the largest multiple of m not above x. */
  lemma SuggestionIsFloorMultiple(x: real, m: real)
    requires x > 0.0 && m > 0.0
    ensures IsMultipleOf(Trunc(x / m) as real * m, m)
    ensures Trunc(x / m) as real * m <= x < Trunc(x / m) as real * m + m
  {
    var q := x / m;
    var f := q.Floor as real;
    assert q * m == x;
    assert q > 0.0;
    assert Trunc(q) == q.Floor;
    assert Trunc(q) as real * m == Times(q.Floor, m);
    assert f <= q;
    MultiplyRight(f, q, m);
    assert q < f + 1.0;
    MultiplyRight(q, f + 1.0, m);
    assert x < (f + 1.0) * m;
    assert (f + 1.0) * m == f * m + m;
    assert x < f * m + m;
  }

  lemma MultiplyRight(a: real, b: real, m: real)
    requires a <= b && m > 0.0
    ensures a * m <= b * m
    ensures a < b ==> a * m < b * m
  {
  }

  /** The bounds of one filter applied to x; a missing minimum reads as 0, a
      missing maximum as +infinity, a missing step as 0 (no step check). */
  function CheckFilter(x: real, f: Filter, minKey: string, maxKey: string, stepKey: string): (v: Option<Violation>)
    ensures v.None? ==> (minKey in f.params ==> f.params[minKey] <= x)
    ensures v.None? && !(minKey in f.params) ==> 0.0 <= x
    ensures v.None? && maxKey in f.params ==> x <= f.params[maxKey]
    ensures v.None? && x > 0.0 && stepKey in f.params && f.params[stepKey] > 0.0 ==>
      IsMultipleOf(x, f.params[stepKey])
    ensures x > 0.0 && v.Some? && v.value.OffStep? ==>
      var step, suggested := v.value.step, v.value.suggested;
      && stepKey in f.params && step == f.params[stepKey] && step > 0.0
      && !IsMultipleOf(x, step)
      && IsMultipleOf(suggested, step) && suggested <= x < suggested + step
      && suggested == (x / step).Floor as real * step
  {
    var low := if minKey in f.params then f.params[minKey] else 0.0;
    var step := if stepKey in f.params then f.params[stepKey] else 0.0;
    if x < low then Some(BelowMin(low))
    else if maxKey in f.params && x > f.params[maxKey] then Some(AboveMax(f.params[maxKey]))
    else if step > 0.0 && DecimalRemainder(x, step) != 0.0 then
      var suggested := Trunc(x / step) as real * step;
      if x > 0.0 then
        SuggestionIsFloorMultiple(x, step);
        RemainderZeroIffMultiple(x, step);
        Some(OffStep(step, suggested))
      else Some(OffStep(step, suggested))
    else
      (if x > 0.0 && step > 0.0 then RemainderZeroIffMultiple(x, step); None else None)
  }

  /** x obeys a filter: at least its minimum, at most its maximum, and a
      multiple of its step when that is positive; a missing bound does not constrain. */
  ghost predicate WithinFilter(x: real, f: Filter, minKey: string, maxKey: string, stepKey: string) {
    && (minKey in f.params ==> f.params[minKey] <= x)
    && (maxKey in f.params ==> x <= f.params[maxKey])
    && (stepKey in f.params && f.params[stepKey] > 0.0 ==> IsMultipleOf(x, f.params[stepKey]))
  }

  /** A positive value passes a filter exactly when it obeys it. */
  lemma CheckFilterAccepts(x: real, f: Filter, minKey: string, maxKey: string, stepKey: string)
    requires x > 0.0
    ensures CheckFilter(x, f, minKey, maxKey, stepKey).None? <==> WithinFilter(x, f, minKey, maxKey, stepKey)
  {
    if stepKey in f.params && f.params[stepKey] > 0.0 {
      RemainderZeroIffMultiple(x, f.params[stepKey]);
    }
  }

  /** validate_quantity, as the value it returns or the error it raises. */
  function QuantityVerdict(quantity: real, info: Option<SymbolInfo>): (r: Result<real, Error>)
    ensures r.Ok? ==> r.value == quantity && quantity > 0.0 && quantity >= MinQuantity
    ensures quantity <= 0.0 ==> r == Err(ValidationError(QuantityNotPositive))
    ensures 0.0 < quantity < MinQuantity ==> r == Err(ValidationError(QuantityTooSmall))
    ensures r.Err? ==> r.error.ValidationError?
  {
    if quantity <= 0.0 then Err(ValidationError(QuantityNotPositive))
    else if quantity < MinQuantity then Err(ValidationError(QuantityTooSmall))
    else if info.None? then Ok(quantity)
    else match FirstFilter(info.value.filters, "LOT_SIZE")
      case None => Ok(quantity)
      case Some(lotSize) =>
        match CheckFilter(quantity, lotSize, "minQty", "maxQty", "stepSize")
        case Some(violation) => Err(ValidationError(QuantityFilter(violation)))
        case None => Ok(quantity)
  }

  /** An accepted quantity lies within the first LOT_SIZE filter and is a multiple of its step. */
  lemma QuantityWithinLotSize(quantity: real, info: SymbolInfo, lotSize: Filter)
    requires QuantityVerdict(quantity, Some(info)).Ok?
    requires FirstFilter(info.filters, "LOT_SIZE") == Some(lotSize)
    ensures "minQty" in lotSize.params ==> lotSize.params["minQty"] <= quantity
    ensures "maxQty" in lotSize.params ==> quantity <= lotSize.params["maxQty"]
    ensures "stepSize" in lotSize.params && lotSize.params["stepSize"] > 0.0 ==>
      IsMultipleOf(quantity, lotSize.params["stepSize"])
  {
  }

  /** A quantity is accepted exactly when it is positive, at least the minimum,
      and obeys the symbol's first LOT_SIZE filter, if there is one. */
  lemma QuantityAccepted(quantity: real, info: Option<SymbolInfo>)
    ensures QuantityVerdict(quantity, info) == Ok(quantity) <==>
      && quantity > 0.0 && quantity >= MinQuantity
      && (info.Some? && FirstFilter(info.value.filters, "LOT_SIZE").Some? ==>
            WithinFilter(quantity, FirstFilter(info.value.filters, "LOT_SIZE").value, "minQty", "maxQty", "stepSize"))
  {
    if quantity > 0.0 && info.Some? && FirstFilter(info.value.filters, "LOT_SIZE").Some? {
      CheckFilterAccepts(quantity, FirstFilter(info.value.filters, "LOT_SIZE").value, "minQty", "maxQty", "stepSize");
    }
  }

  /** A quantity off the step is refused with floor(q / step) * step as the suggestion. */
  lemma QuantityOffStepSuggestion(quantity: real, info: Option<SymbolInfo>, step: real, suggested: real)
    requires QuantityVerdict(quantity, info) == Err(ValidationError(QuantityFilter(OffStep(step, suggested))))
    ensures step > 0.0 && !IsMultipleOf(quantity, step)
    ensures suggested == (quantity / step).Floor as real * step
    ensures IsMultipleOf(suggested, step) && suggested <= quantity < suggested + step
  {
  }

  /** validate_quantity: its loop-and-break search for the LOT_SIZE filter. */
  method ValidateQuantity(quantity: real, info: Option<SymbolInfo>) returns (r: Result<real, Error>)
    ensures r == QuantityVerdict(quantity, info)
  {
    if quantity <= 0.0 {
      return Err(ValidationError(QuantityNotPositive));
    }
    if quantity < MinQuantity {
      return Err(ValidationError(QuantityTooSmall));
    }
    if info.Some? {
      var lotSize := FindFilter(info.value.filters, "LOT_SIZE");
      if lotSize.Some? {
        var violation := CheckFilter(quantity, lotSize.value, "minQty", "maxQty", "stepSize");
        if violation.Some? {
          return Err(ValidationError(QuantityFilter(violation.value)));
        }
      }
    }
    return Ok(quantity);
  }

  /** validate_price, as the value it returns or the error it raises; an absent price passes. */
  function PriceVerdict(price: Option<real>, info: Option<SymbolInfo>): (r: Result<Option<real>, Error>)
    ensures price.None? ==> r == Ok(None)
    ensures r.Ok? ==> r.value == price && (price.Some? ==> price.value > 0.0)
    ensures price.Some? && price.value <= 0.0 ==> r == Err(ValidationError(PriceNotPositive))
    ensures r.Err? ==> r.error.ValidationError?
  {
    if price.None? then Ok(None)
    else if price.value <= 0.0 then Err(ValidationError(PriceNotPositive))
    else if info.None? then Ok(price)
    else match FirstFilter(info.value.filters, "PRICE_FILTER")
      case None => Ok(price)
      case Some(priceFilter) =>
        match CheckFilter(price.value, priceFilter, "minPrice", "maxPrice", "tickSize")
        case Some(violation) => Err(ValidationError(PriceFilter(violation)))
        case None => Ok(price)
  }

  /** An accepted price lies within the first PRICE_FILTER and is a multiple of its tick. */
  lemma PriceWithinPriceFilter(price: real, info: SymbolInfo, priceFilter: Filter)
    requires PriceVerdict(Some(price), Some(info)).Ok?
    requires FirstFilter(info.filters, "PRICE_FILTER") == Some(priceFilter)
    ensures "minPrice" in priceFilter.params ==> priceFilter.params["minPrice"] <= price
    ensures "maxPrice" in priceFilter.params ==> price <= priceFilter.params["maxPrice"]
    ensures "tickSize" in priceFilter.params && priceFilter.params["tickSize"] > 0.0 ==>
      IsMultipleOf(price, priceFilter.params["tickSize"])
  {
  }

  /** A given price is accepted exactly when it is positive and obeys the
      symbol's first PRICE_FILTER, if there is one. */
  lemma PriceAccepted(price: real, info: Option<SymbolInfo>)
    ensures PriceVerdict(Some(price), info) == Ok(Some(price)) <==>
      && price > 0.0
      && (info.Some? && FirstFilter(info.value.filters, "PRICE_FILTER").Some? ==>
            WithinFilter(price, FirstFilter(info.value.filters, "PRICE_FILTER").value, "minPrice", "maxPrice", "tickSize"))
  {
    if price > 0.0 && info.Some? && FirstFilter(info.value.filters, "PRICE_FILTER").Some? {
      CheckFilterAccepts(price, FirstFilter(info.value.filters, "PRICE_FILTER").value, "minPrice", "maxPrice", "tickSize");
    }
  }

  /** A price off the tick is refused with floor(p / tick) * tick as the suggestion. */
  lemma PriceOffTickSuggestion(price: Option<real>, info: Option<SymbolInfo>, tick: real, suggested: real)
    requires PriceVerdict(price, info) == Err(ValidationError(PriceFilter(OffStep(tick, suggested))))
    ensures price.Some? && tick > 0.0 && !IsMultipleOf(price.value, tick)
    ensures suggested == (price.value / tick).Floor as real * tick
    ensures IsMultipleOf(suggested, tick) && suggested <= price.value < suggested + tick
  {
  }

  /** validate_price: its loop-and-break search for the PRICE_FILTER filter. */
  method ValidatePrice(price: Option<real>, info: Option<SymbolInfo>) returns (r: Result<Option<real>, Error>)
    ensures r == PriceVerdict(price, info)
  {
    if price.None? {
      return Ok(None);
    }
    if price.value <= 0.0 {
      return Err(ValidationError(PriceNotPositive));
    }
    if info.Some? {
      var priceFilter := FindFilter(info.value.filters, "PRICE_FILTER");
      if priceFilter.Some? {
        var violation := CheckFilter(price.value, priceFilter.value, "minPrice", "maxPrice", "tickSize");
        if violation.Some? {
          return Err(ValidationError(PriceFilter(violation.value)));
        }
      }
    }
    return Ok(price);
  }

  // ---------------------------------------------------------------------
  // Cross-field rules and native kinds
  // ---------------------------------------------------------------------

  /** validate_cross_field_constraints: the first rule the fields break, if any. */
  function CrossFieldViolation(kind: OrderKind, price: Option<real>, stopPrice: Option<real>): (v: Option<Reason>)
    ensures v.None? <==>
      && (kind == Limit ==> price.Some?)
      && (kind == StopLimit || kind == Oco ==> price.Some? && stopPrice.Some?)
      && (kind == Market ==> price.None?)
    ensures v.Some? ==> v.value in {PriceRequired(kind), StopPriceRequired(kind), MarketWithPrice}
  {
    if kind == Limit && price.None? then Some(PriceRequired(Limit))
    else if (kind == StopLimit || kind == Oco) && price.None? then Some(PriceRequired(kind))
    else if (kind == StopLimit || kind == Oco) && stopPrice.None? then Some(StopPriceRequired(kind))
    else if kind == Market && price.Some? then Some(MarketWithPrice)
    else None
  }

  /** _map_to_binance_order_type: OCO, TWAP and GRID have no native counterpart. */
  function NativeType(kind: OrderKind): (r: Result<string, Error>)
    ensures r.Ok? <==> kind in {Market, Limit, StopLimit}
    ensures r.Err? ==> r.error == ValidationError(NotNative(kind))
    ensures r.Ok? ==> r.value in {"MARKET", "LIMIT", "STOP"}
  {
    match kind
    case Market => Ok("MARKET")
    case Limit => Ok("LIMIT")
    case StopLimit => Ok("STOP")
    case _ => Err(ValidationError(NotNative(kind)))
  }

  /** The native kinds that carry a time in force: all but the market-style ones. */
  predicate TakesTimeInForce(native: string) {
    native !in ["MARKET", "STOP_MARKET", "TAKE_PROFIT_MARKET", "TRAILING_STOP_MARKET"]
  }

  /** Of the native types the validators produce, only MARKET goes without a time in force. */
  lemma NativeTimeInForce(kind: OrderKind)
    requires NativeType(kind).Ok?
    ensures TakesTimeInForce(NativeType(kind).value) <==> NativeType(kind).value != "MARKET"
  {
  }

  // ---------------------------------------------------------------------
  // The whole request
  // ---------------------------------------------------------------------

  /** The dictionary validate_order_request returns, built from validated fields. */
  function BuildRequest(
    symbol: string, side: string, native: string, quantity: real,
    price: Option<real>, stopPrice: Option<real>, timeInForce: string, clientOrderId: Option<string>): Request
  {
    var base := map["symbol" := Str(symbol), "side" := Str(side), "type" := Str(native), "quantity" := Num(quantity)];
    var withTif := if TakesTimeInForce(native) then base["timeInForce" := Str(timeInForce)] else base;
    var withPrice := if price.Some? then withTif["price" := Num(price.value)] else withTif;
    var withStop := if stopPrice.Some? then withPrice["stopPrice" := Num(stopPrice.value)] else withPrice;
    if clientOrderId.Some? && clientOrderId.value != "" then withStop["newClientOrderId" := Str(clientOrderId.value)]
    else withStop
  }

  /** The fields of an order once each has passed its own check. */
  datatype Fields = Fields(
    symbol: string, side: string, kind: OrderKind, quantity: real,
    price: Option<real>, stopPrice: Option<real>, timeInForce: string)

  /** The per-field checks of validate_order_request, in its order; the first failure wins. */
  function FieldsVerdict(
    symbol: string, side: string, orderType: string, quantity: real,
    price: Option<real>, stopPrice: Option<real>, timeInForce: Option<string>,
    info: Option<SymbolInfo>): (r: Result<Fields, Error>)
    ensures r.Err? ==> r.error.ValidationError?
    ensures r.Ok? <==>
      && ValidateSymbol(symbol).Ok? && ValidateSide(side).Ok? && ValidateOrderType(orderType).Ok?
      && QuantityVerdict(quantity, info).Ok? && PriceVerdict(price, info).Ok? && PriceVerdict(stopPrice, info).Ok?
      && ValidateTimeInForce(timeInForce).Ok?
    ensures r.Ok? ==> r.value == Fields(
      ValidateSymbol(symbol).value, ValidateSide(side).value, ValidateOrderType(orderType).value,
      quantity, price, stopPrice, ValidateTimeInForce(timeInForce).value)
  {
    var validSymbol :- ValidateSymbol(symbol);
    var validSide :- ValidateSide(side);
    var kind :- ValidateOrderType(orderType);
    var validQuantity :- QuantityVerdict(quantity, info);
    var validPrice :- PriceVerdict(price, info);
    var validStop :- PriceVerdict(stopPrice, info);
    var validTif :- ValidateTimeInForce(timeInForce);
    Ok(Fields(validSymbol, validSide, kind, validQuantity, validPrice, validStop, validTif))
  }

  /** validate_order_request: the request it returns or the ValidationError it raises. */
  function RequestVerdict(
    symbol: string, side: string, orderType: string, quantity: real,
    price: Option<real>, stopPrice: Option<real>, timeInForce: Option<string>,
    clientOrderId: Option<string>, info: Option<SymbolInfo>): (r: Result<Request, Error>)
    ensures r.Err? ==> r.error.ValidationError?
  {
    var fields :- FieldsVerdict(symbol, side, orderType, quantity, price, stopPrice, timeInForce, info);
    match CrossFieldViolation(fields.kind, fields.price, fields.stopPrice)
    case Some(reason) => Err(ValidationError(reason))
    case None =>
      var native :- NativeType(fields.kind);
      Ok(BuildRequest(fields.symbol, fields.side, native, fields.quantity, fields.price, fields.stopPrice,
        fields.timeInForce, clientOrderId))
  }

  /** The per-field checks of validate_order_request, run one after another;
      the first failure is raised. */
  method ValidateFields(
    symbol: string, side: string, orderType: string, quantity: real,
    price: Option<real>, stopPrice: Option<real>, timeInForce: Option<string>,
    info: Option<SymbolInfo>) returns (r: Result<Fields, Error>)
    ensures r == FieldsVerdict(symbol, side, orderType, quantity, price, stopPrice, timeInForce, info)
  {
    var validSymbol :- ValidateSymbol(symbol);
    var validSide :- ValidateSide(side);
    var kind :- ValidateOrderType(orderType);
    var validQuantity :- ValidateQuantity(quantity, info);
    var validPrice :- ValidatePrice(price, info);
    var validStop :- ValidatePrice(stopPrice, info);
    var validTif :- ValidateTimeInForce(timeInForce);
    return Ok(Fields(validSymbol, validSide, kind, validQuantity, validPrice, validStop, validTif));
  }

  /** validate_order_request: checks the fields in order, then inserts the optional keys in place. */
  method ValidateOrderRequest(
    symbol: string, side: string, orderType: string, quantity: real,
    price: Option<real>, stopPrice: Option<real>, timeInForce: Option<string>,
    clientOrderId: Option<string>, info: Option<SymbolInfo>) returns (r: Result<Request, Error>)
    ensures r == RequestVerdict(symbol, side, orderType, quantity, price, stopPrice, timeInForce, clientOrderId, info)
  {
    var fields :- ValidateFields(symbol, side, orderType, quantity, price, stopPrice, timeInForce, info);
    var violation := CrossFieldViolation(fields.kind, fields.price, fields.stopPrice);
    if violation.Some? {
      return Err(ValidationError(violation.value));
    }
    var native :- NativeType(fields.kind);
    var request: Request :=
      map["symbol" := Str(fields.symbol), "side" := Str(fields.side), "type" := Str(native), "quantity" := Num(fields.quantity)];
    if TakesTimeInForce(native) {
      request := request["timeInForce" := Str(fields.timeInForce)];
    }
    if fields.price.Some? {
      request := request["price" := Num(fields.price.value)];
    }
    if fields.stopPrice.Some? {
      request := request["stopPrice" := Num(fields.stopPrice.value)];
    }
    if clientOrderId.Some? && clientOrderId.value != "" {
      request := request["newClientOrderId" := Str(clientOrderId.value)];
    }
    return Ok(request);
  }

  /** The keys of a built request: the four fixed ones, a time in force exactly
      for the non-market native types, and each optional field exactly when given. */
  lemma BuildRequestShape(
    symbol: string, side: string, native: string, quantity: real,
    price: Option<real>, stopPrice: Option<real>, timeInForce: string, clientOrderId: Option<string>)
    ensures var request := BuildRequest(symbol, side, native, quantity, price, stopPrice, timeInForce, clientOrderId);
      && request.Keys <= {"symbol", "side", "type", "quantity", "timeInForce", "price", "stopPrice", "newClientOrderId"}
      && "symbol" in request && request["symbol"] == Str(symbol)
      && "side" in request && request["side"] == Str(side)
      && "type" in request && request["type"] == Str(native)
      && "quantity" in request && request["quantity"] == Num(quantity)
      && ("timeInForce" in request <==> TakesTimeInForce(native))
      && ("timeInForce" in request ==> request["timeInForce"] == Str(timeInForce))
      && ("price" in request <==> price.Some?)
      && (price.Some? ==> request["price"] == Num(price.value))
      && ("stopPrice" in request <==> stopPrice.Some?)
      && (stopPrice.Some? ==> request["stopPrice"] == Num(stopPrice.value))
      && ("newClientOrderId" in request <==> clientOrderId.Some? && clientOrderId.value != "")
      && ("newClientOrderId" in request ==> request["newClientOrderId"] == Str(clientOrderId.value))
  {
  }

  /** An accepted request of a known kind is the dictionary built from the
      validated fields and that kind's native type, and obeys the kind's price rules. */
  lemma AcceptedAs(
    symbol: string, side: string, orderType: string, quantity: real,
    price: Option<real>, stopPrice: Option<real>, timeInForce: Option<string>,
    clientOrderId: Option<string>, info: Option<SymbolInfo>, kind: OrderKind, request: Request)
    requires ValidateOrderType(orderType) == Ok(kind)
    requires RequestVerdict(symbol, side, orderType, quantity, price, stopPrice, timeInForce, clientOrderId, info) == Ok(request)
    ensures NativeType(kind).Ok?
    ensures kind == Limit ==> price.Some?
    ensures kind == StopLimit ==> price.Some? && stopPrice.Some?
    ensures kind == Market ==> price.None?
    ensures request == BuildRequest(ValidateSymbol(symbol).value, ValidateSide(side).value, NativeType(kind).value,
      quantity, price, stopPrice, ValidateTimeInForce(timeInForce).value, clientOrderId)
  {
    AcceptedRequestParts(symbol, side, orderType, quantity, price, stopPrice, timeInForce, clientOrderId, info, request);
  }

  /** Conversely, a request whose every check passes is accepted. */
  lemma AcceptedWhen(
    symbol: string, side: string, orderType: string, quantity: real,
    price: Option<real>, stopPrice: Option<real>, timeInForce: Option<string>,
    clientOrderId: Option<string>, info: Option<SymbolInfo>, kind: OrderKind)
    requires ValidateOrderType(orderType) == Ok(kind)
    requires ValidateSymbol(symbol).Ok? && ValidateSide(side).Ok? && ValidateTimeInForce(timeInForce).Ok?
    requires QuantityVerdict(quantity, info).Ok? && PriceVerdict(price, info).Ok? && PriceVerdict(stopPrice, info).Ok?
    requires CrossFieldViolation(kind, price, stopPrice).None? && NativeType(kind).Ok?
    ensures RequestVerdict(symbol, side, orderType, quantity, price, stopPrice, timeInForce, clientOrderId, info).Ok?
  {
  }

  /** An accepted request passed every field check and is the dictionary built from them. */
  lemma AcceptedRequestParts(
    symbol: string, side: string, orderType: string, quantity: real,
    price: Option<real>, stopPrice: Option<real>, timeInForce: Option<string>,
    clientOrderId: Option<string>, info: Option<SymbolInfo>, request: Request)
    requires RequestVerdict(symbol, side, orderType, quantity, price, stopPrice, timeInForce, clientOrderId, info) == Ok(request)
    ensures ValidateSymbol(symbol).Ok? && ValidateSide(side).Ok? && ValidateOrderType(orderType).Ok?
    ensures QuantityVerdict(quantity, info).Ok? && PriceVerdict(price, info).Ok? && PriceVerdict(stopPrice, info).Ok?
    ensures ValidateTimeInForce(timeInForce).Ok?
    ensures CrossFieldViolation(ValidateOrderType(orderType).value, price, stopPrice).None?
    ensures NativeType(ValidateOrderType(orderType).value).Ok?
    ensures request == BuildRequest(ValidateSymbol(symbol).value, ValidateSide(side).value,
      NativeType(ValidateOrderType(orderType).value).value, quantity, price, stopPrice,
      ValidateTimeInForce(timeInForce).value, clientOrderId)
  {
  }

  /** The shape of every accepted request: normalised symbol and side, the
      native type, and the optional keys present exactly when supplied. */
  lemma AcceptedRequestShape(
    symbol: string, side: string, orderType: string, quantity: real,
    price: Option<real>, stopPrice: Option<real>, timeInForce: Option<string>,
    clientOrderId: Option<string>, info: Option<SymbolInfo>, request: Request)
    requires RequestVerdict(symbol, side, orderType, quantity, price, stopPrice, timeInForce, clientOrderId, info) == Ok(request)
    ensures ValidateOrderType(orderType).Ok? && ValidateOrderType(orderType).value in {Market, Limit, StopLimit}
    ensures request.Keys <= {"symbol", "side", "type", "quantity", "timeInForce", "price", "stopPrice", "newClientOrderId"}
    ensures "symbol" in request && request["symbol"] == Str(Strip(Upper(symbol)))
    ensures SymbolPattern(Strip(Upper(symbol)))
    ensures "side" in request && request["side"] == Str(Strip(Upper(side)))
    ensures Strip(Upper(side)) in {"BUY", "SELL"}
    ensures "type" in request && request["type"] == Str(NativeType(ValidateOrderType(orderType).value).value)
    ensures "quantity" in request && request["quantity"] == Num(quantity)
    ensures "timeInForce" in request <==> request["type"] != Str("MARKET")
    ensures "timeInForce" in request ==> request["timeInForce"] == Str(ValidateTimeInForce(timeInForce).value)
    ensures "price" in request <==> price.Some?
    ensures price.Some? ==> request["price"] == Num(price.value)
    ensures "stopPrice" in request <==> stopPrice.Some?
    ensures stopPrice.Some? ==> request["stopPrice"] == Num(stopPrice.value)
    ensures "newClientOrderId" in request <==> clientOrderId.Some? && clientOrderId.value != ""
    ensures "newClientOrderId" in request ==> request["newClientOrderId"] == Str(clientOrderId.value)
  {
    AcceptedRequestParts(symbol, side, orderType, quantity, price, stopPrice, timeInForce, clientOrderId, info, request);
    var native := NativeType(ValidateOrderType(orderType).value).value;
    BuildRequestShape(ValidateSymbol(symbol).value, ValidateSide(side).value, native, quantity, price, stopPrice,
      ValidateTimeInForce(timeInForce).value, clientOrderId);
    NativeTimeInForce(ValidateOrderType(orderType).value);
  }

  /** OCO, TWAP and GRID pass the field checks at best: the request is never built. */
  lemma CompositeKindsNeverValidate(
    symbol: string, side: string, orderType: string, quantity: real,
    price: Option<real>, stopPrice: Option<real>, timeInForce: Option<string>,
    clientOrderId: Option<string>, info: Option<SymbolInfo>)
    requires ValidateOrderType(orderType).Ok? && ValidateOrderType(orderType).value in {Oco, Twap, Grid}
    ensures RequestVerdict(symbol, side, orderType, quantity, price, stopPrice, timeInForce, clientOrderId, info).Err?
  {
    var verdict := RequestVerdict(symbol, side, orderType, quantity, price, stopPrice, timeInForce, clientOrderId, info);
    if verdict.Ok? {
      AcceptedRequestParts(symbol, side, orderType, quantity, price, stopPrice, timeInForce, clientOrderId, info, verdict.value);
    }
  }

  /** The rules of validate_cross_field_constraints, seen through the whole request. */
  lemma CrossFieldRulesEnforced(
    symbol: string, side: string, orderType: string, quantity: real,
    price: Option<real>, stopPrice: Option<real>, timeInForce: Option<string>,
    clientOrderId: Option<string>, info: Option<SymbolInfo>)
    requires ValidateOrderType(orderType).Ok?
    requires var kind := ValidateOrderType(orderType).value;
      || (kind == Limit && price.None?)
      || (kind == StopLimit && (price.None? || stopPrice.None?))
      || (kind == Market && price.Some?)
    ensures RequestVerdict(symbol, side, orderType, quantity, price, stopPrice, timeInForce, clientOrderId, info).Err?
  {
    var verdict := RequestVerdict(symbol, side, orderType, quantity, price, stopPrice, timeInForce, clientOrderId, info);
    if verdict.Ok? {
      AcceptedRequestParts(symbol, side, orderType, quantity, price, stopPrice, timeInForce, clientOrderId, info, verdict.value);
    }
  }

  /** The BTCUSDT filters of the examples below: tick 0.1, lot step 0.001. */
  function ExampleInfo(): SymbolInfo {
    SymbolInfo("BTCUSDT", [
      Filter("PRICE_FILTER", map["minPrice" := 0.1, "maxPrice" := 1000000.0, "tickSize" := 0.1]),
      Filter("LOT_SIZE", map["minQty" := 0.001, "maxQty" := 1000.0, "stepSize" := 0.001])])
  }

  lemma ExampleFieldsPass()
    ensures QuantityVerdict(0.01, Some(ExampleInfo())) == Ok(0.01)
    ensures PriceVerdict(Some(50000.5), Some(ExampleInfo())) == Ok(Some(50000.5))
  {
    var info := ExampleInfo();
    assert FirstIndex(info.filters, "LOT_SIZE") == 1;
    assert FirstIndex(info.filters, "PRICE_FILTER") == 0;
    assert (0.01 / 0.001).Floor == 10;
    assert (50000.5 / 0.1).Floor == 500005;
  }

  /** A quantity of 0.0105 is off the 0.001 lot step, and 0.01 is suggested instead. */
  lemma ExampleQuantityOffStep()
    ensures QuantityVerdict(0.0105, Some(ExampleInfo())) == Err(ValidationError(QuantityFilter(OffStep(0.001, 0.01))))
  {
    var info := ExampleInfo();
    assert FirstIndex(info.filters, "LOT_SIZE") == 1;
    assert (0.0105 / 0.001).Floor == 10;
  }

  /** The fields of a LIMIT BUY of 0.01 BTCUSDT at 50000.5 all pass, the time in force defaulting to GTC. */
  lemma LimitBuyFields()
    ensures FieldsVerdict("BTCUSDT", "BUY", "LIMIT", 0.01, Some(50000.5), None, None, Some(ExampleInfo()))
      == Ok(Fields("BTCUSDT", "BUY", Limit, 0.01, Some(50000.5), None, "GTC"))
  {
    CanonicalSymbolAccepted("BTCUSDT");
    ValidateSideFixesCanonical("BUY");
    OrderTypeRoundTrip(Limit);
    ExampleFieldsPass();
  }

  /** That order becomes a native LIMIT request with the default time in force and unchanged amounts. */
  lemma LimitBuyExample()
    ensures RequestVerdict("BTCUSDT", "BUY", "LIMIT", 0.01, Some(50000.5), None, None, None, Some(ExampleInfo())) ==
      Ok(map["symbol" := Str("BTCUSDT"), "side" := Str("BUY"), "type" := Str("LIMIT"), "quantity" := Num(0.01),
             "timeInForce" := Str("GTC"), "price" := Num(50000.5)])
  {
    LimitBuyFields();
    LimitBuyBuilt();
  }

  lemma LimitBuyBuilt()
    ensures BuildRequest("BTCUSDT", "BUY", "LIMIT", 0.01, Some(50000.5), None, "GTC", None) ==
      map["symbol" := Str("BTCUSDT"), "side" := Str("BUY"), "type" := Str("LIMIT"), "quantity" := Num(0.01),
          "timeInForce" := Str("GTC"), "price" := Num(50000.5)]
  {
    assert TakesTimeInForce("LIMIT");
  }
}
