/** Market orders: validate as a MARKET order, then place exactly one order. */
module MarketOrders {
  import opened Wrappers
  import opened Domain
  import opened Validators
  import opened Placement

  /** The request `place_buy_order` / `place_sell_order` validate: kind MARKET, no prices,
      default time in force. */
  function MarketVerdict(side: string, symbol: string, quantity: real, clientOrderId: Option<string>,
                         info: Option<SymbolInfo>): Result<Request, Error>
  {
    RequestVerdict(symbol, side, "MARKET", quantity, None, None, None, clientOrderId, info)
  }

  /** The order type a market order names, its native counterpart, and the
      checks a market order passes whatever its amounts. */
  lemma MarketKind()
    ensures ValidateOrderType("MARKET") == Ok(Market)
    ensures NativeType(Market) == Ok("MARKET") && !TakesTimeInForce("MARKET")
    ensures ValidateTimeInForce(None) == Ok(DefaultTimeInForce)
    ensures CrossFieldViolation(Market, None, None).None?
  {
    OrderTypeRoundTrip(Market);
  }

  /** `place_order`'s verdict: the case-insensitive dispatch, then the chosen side's validation. */
  function MarketOrderVerdict(symbol: string, side: string, quantity: real, clientOrderId: Option<string>,
                              info: Option<SymbolInfo>): Result<Request, Error>
  {
    match DispatchSide(side)
    case None => Err(ValidationError(StrategySide(side)))
    case Some(dispatched) => MarketVerdict(dispatched, symbol, quantity, clientOrderId, info)
  }

  /** What a market order sends: native type MARKET on the given side, the
      quantity, no price, no time in force, and the client id iff non-empty. */
  lemma MarketRequestShape(side: string, symbol: string, quantity: real, clientOrderId: Option<string>,
                           info: Option<SymbolInfo>, request: Request)
    requires side in {"BUY", "SELL"}
    requires MarketVerdict(side, symbol, quantity, clientOrderId, info) == Ok(request)
    ensures "type" in request && request["type"] == Str("MARKET")
    ensures "side" in request && request["side"] == Str(side)
    ensures "quantity" in request && request["quantity"] == Num(quantity)
    ensures "price" !in request && "stopPrice" !in request && "timeInForce" !in request
    ensures "newClientOrderId" in request <==> clientOrderId.Some? && clientOrderId.value != ""
    ensures "newClientOrderId" in request ==> request["newClientOrderId"] == Str(clientOrderId.value)
  {
    MarketKind();
    ValidateSideFixesCanonical(side);
    AcceptedAs(symbol, side, "MARKET", quantity, None, None, None, clientOrderId, info, Market, request);
    BuildRequestShape(ValidateSymbol(symbol).value, side, "MARKET", quantity, None, None,
      ValidateTimeInForce(None).value, clientOrderId);
  }

  /** A market order is refused only by the checks of the symbol, the quantity and its filters. */
  lemma MarketAcceptedIff(side: string, symbol: string, quantity: real, clientOrderId: Option<string>,
                          info: Option<SymbolInfo>)
    requires side in {"BUY", "SELL"}
    ensures MarketVerdict(side, symbol, quantity, clientOrderId, info).Ok? <==>
      ValidateSymbol(symbol).Ok? && QuantityVerdict(quantity, info).Ok?
  {
    MarketKind();
    ValidateSideFixesCanonical(side);
    var verdict := MarketVerdict(side, symbol, quantity, clientOrderId, info);
    if verdict.Ok? {
      AcceptedRequestParts(symbol, side, "MARKET", quantity, None, None, None, clientOrderId, info, verdict.value);
    }
    if ValidateSymbol(symbol).Ok? && QuantityVerdict(quantity, info).Ok? {
      AcceptedWhen(symbol, side, "MARKET", quantity, None, None, None, clientOrderId, info, Market);
    }
  }

  /** `MarketOrder`: a handle on the client. */
  class MarketOrder {
    const client: Client

    constructor(client: Client)
      ensures this.client == client
    {
      this.client := client;
    }

    /** `place_buy_order`. */
    method PlaceBuyOrder(symbol: string, quantity: real, clientOrderId: Option<string>, info: Option<SymbolInfo>)
      returns (r: Result<Receipt, Error>)
      modifies client
      ensures PlacedOnce(MarketVerdict("BUY", symbol, quantity, clientOrderId, info),
                         client.placeReply, old(client.placed), client.placed, r)
      ensures client.created == old(client.created)
    {
      r := PlaceSide("BUY", symbol, quantity, clientOrderId, info);
    }

    /** `place_sell_order`. */
    method PlaceSellOrder(symbol: string, quantity: real, clientOrderId: Option<string>, info: Option<SymbolInfo>)
      returns (r: Result<Receipt, Error>)
      modifies client
      ensures PlacedOnce(MarketVerdict("SELL", symbol, quantity, clientOrderId, info),
                         client.placeReply, old(client.placed), client.placed, r)
      ensures client.created == old(client.created)
    {
      r := PlaceSide("SELL", symbol, quantity, clientOrderId, info);
    }

    /** The body both sides share: validate, and place only what validated. */
    method PlaceSide(side: string, symbol: string, quantity: real, clientOrderId: Option<string>,
                     info: Option<SymbolInfo>) returns (r: Result<Receipt, Error>)
      modifies client
      ensures PlacedOnce(MarketVerdict(side, symbol, quantity, clientOrderId, info),
                         client.placeReply, old(client.placed), client.placed, r)
      ensures client.created == old(client.created)
    {
      var request := ValidateOrderRequest(symbol, side, "MARKET", quantity, None, None, None, clientOrderId, info);
      if request.Err? {
        return Err(request.error);
      }
      r := client.PlaceOrder(request.value);
    }

    /** `place_order`: BUY or SELL in any letter case, anything else refused before placement. */
    method PlaceOrder(symbol: string, side: string, quantity: real, clientOrderId: Option<string>,
                      info: Option<SymbolInfo>) returns (r: Result<Receipt, Error>)
      modifies client
      ensures PlacedOnce(MarketOrderVerdict(symbol, side, quantity, clientOrderId, info),
                         client.placeReply, old(client.placed), client.placed, r)
      ensures client.created == old(client.created)
    {
      var dispatched := DispatchSide(side);
      if dispatched == Some("BUY") {
        r := PlaceBuyOrder(symbol, quantity, clientOrderId, info);
      } else if dispatched == Some("SELL") {
        r := PlaceSellOrder(symbol, quantity, clientOrderId, info);
      } else {
        r := Err(ValidationError(StrategySide(side)));
      }
    }
  }
}
