/** Stop-limit orders: validate as a STOP_LIMIT order (native type STOP) with
    a limit price, a stop price and a time in force, then place exactly one order. */
module StopLimitOrders {
  import opened Wrappers
  import opened Domain
  import opened Validators
  import opened Placement

  /** The request `place_buy_order` / `place_sell_order` validate. */
  function StopLimitVerdict(side: string, symbol: string, quantity: real, price: real, stopPrice: real,
                            timeInForce: string, clientOrderId: Option<string>,
                            info: Option<SymbolInfo>): Result<Request, Error>
  {
    RequestVerdict(symbol, side, "STOP_LIMIT", quantity, Some(price), Some(stopPrice), Some(timeInForce),
                   clientOrderId, info)
  }

  /** `place_order`'s verdict: the case-insensitive dispatch, then the chosen side's validation. */
  function StopLimitOrderVerdict(symbol: string, side: string, quantity: real, price: real, stopPrice: real,
                                 timeInForce: string, clientOrderId: Option<string>,
                                 info: Option<SymbolInfo>): Result<Request, Error>
  {
    match DispatchSide(side)
    case None => Err(ValidationError(StrategySide(side)))
    case Some(dispatched) => StopLimitVerdict(dispatched, symbol, quantity, price, stopPrice, timeInForce, clientOrderId, info)
  }

  /** The order type a stop-limit order names, and its native counterpart. */
  lemma StopLimitKind()
    ensures ValidateOrderType("STOP_LIMIT") == Ok(StopLimit)
    ensures NativeType(StopLimit) == Ok("STOP") && TakesTimeInForce("STOP")
  {
    OrderTypeRoundTrip(StopLimit);
  }

  /** What a stop-limit order sends: native type STOP on the given side, with
      the quantity, both prices and the validated time in force. */
  lemma StopLimitRequestShape(side: string, symbol: string, quantity: real, price: real, stopPrice: real,
                              timeInForce: string, clientOrderId: Option<string>,
                              info: Option<SymbolInfo>, request: Request)
    requires side in {"BUY", "SELL"}
    requires StopLimitVerdict(side, symbol, quantity, price, stopPrice, timeInForce, clientOrderId, info) == Ok(request)
    ensures "type" in request && request["type"] == Str("STOP")
    ensures "side" in request && request["side"] == Str(side)
    ensures "quantity" in request && request["quantity"] == Num(quantity)
    ensures "price" in request && request["price"] == Num(price)
    ensures "stopPrice" in request && request["stopPrice"] == Num(stopPrice)
    ensures "timeInForce" in request && request["timeInForce"] == Str(ValidateTimeInForce(Some(timeInForce)).value)
    ensures "newClientOrderId" in request <==> clientOrderId.Some? && clientOrderId.value != ""
    ensures "newClientOrderId" in request ==> request["newClientOrderId"] == Str(clientOrderId.value)
  {
    StopLimitKind();
    ValidateSideFixesCanonical(side);
    AcceptedAs(symbol, side, "STOP_LIMIT", quantity, Some(price), Some(stopPrice), Some(timeInForce),
               clientOrderId, info, StopLimit, request);
    BuildRequestShape(ValidateSymbol(symbol).value, side, "STOP", quantity, Some(price), Some(stopPrice),
      ValidateTimeInForce(Some(timeInForce)).value, clientOrderId);
  }

  /** `StopLimitOrder`: a handle on the client. */
  class StopLimitOrder {
    const client: Client

    constructor(client: Client)
      ensures this.client == client
    {
      this.client := client;
    }

    /** `place_buy_order`. */
    method PlaceBuyOrder(symbol: string, quantity: real, price: real, stopPrice: real, timeInForce: string,
                         clientOrderId: Option<string>, info: Option<SymbolInfo>) returns (r: Result<Receipt, Error>)
      modifies client
      ensures PlacedOnce(StopLimitVerdict("BUY", symbol, quantity, price, stopPrice, timeInForce, clientOrderId, info),
                         client.placeReply, old(client.placed), client.placed, r)
      ensures client.created == old(client.created)
    {
      r := PlaceSide("BUY", symbol, quantity, price, stopPrice, timeInForce, clientOrderId, info);
    }

    /** `place_sell_order`. */
    method PlaceSellOrder(symbol: string, quantity: real, price: real, stopPrice: real, timeInForce: string,
                          clientOrderId: Option<string>, info: Option<SymbolInfo>) returns (r: Result<Receipt, Error>)
      modifies client
      ensures PlacedOnce(StopLimitVerdict("SELL", symbol, quantity, price, stopPrice, timeInForce, clientOrderId, info),
                         client.placeReply, old(client.placed), client.placed, r)
      ensures client.created == old(client.created)
    {
      r := PlaceSide("SELL", symbol, quantity, price, stopPrice, timeInForce, clientOrderId, info);
    }

    /** The body both sides share: validate, and place only what validated. */
    method PlaceSide(side: string, symbol: string, quantity: real, price: real, stopPrice: real, timeInForce: string,
                     clientOrderId: Option<string>, info: Option<SymbolInfo>) returns (r: Result<Receipt, Error>)
      modifies client
      ensures PlacedOnce(StopLimitVerdict(side, symbol, quantity, price, stopPrice, timeInForce, clientOrderId, info),
                         client.placeReply, old(client.placed), client.placed, r)
      ensures client.created == old(client.created)
    {
      var request := ValidateOrderRequest(symbol, side, "STOP_LIMIT", quantity, Some(price), Some(stopPrice),
                                          Some(timeInForce), clientOrderId, info);
      if request.Err? {
        return Err(request.error);
      }
      r := client.PlaceOrder(request.value);
    }

    /** `place_order`: BUY or SELL in any letter case, anything else refused before placement. */
    method PlaceOrder(symbol: string, side: string, quantity: real, price: real, stopPrice: real, timeInForce: string,
                      clientOrderId: Option<string>, info: Option<SymbolInfo>) returns (r: Result<Receipt, Error>)
      modifies client
      ensures PlacedOnce(StopLimitOrderVerdict(symbol, side, quantity, price, stopPrice, timeInForce, clientOrderId, info),
                         client.placeReply, old(client.placed), client.placed, r)
      ensures client.created == old(client.created)
    {
      var dispatched := DispatchSide(side);
      if dispatched == Some("BUY") {
        r := PlaceBuyOrder(symbol, quantity, price, stopPrice, timeInForce, clientOrderId, info);
      } else if dispatched == Some("SELL") {
        r := PlaceSellOrder(symbol, quantity, price, stopPrice, timeInForce, clientOrderId, info);
      } else {
        r := Err(ValidationError(StrategySide(side)));
      }
    }
  }
}
