/** Limit orders, as the TWAP and grid strategies use them: validate as a
    LIMIT order with a price and a time in force, then place exactly one order.
    This mirrors the market-order strategy with the order type changed. */
module LimitOrders {
  import opened Wrappers
  import opened Domain
  import opened Validators
  import opened Placement

  /** The request a limit placement validates. */
  function LimitVerdict(side: string, symbol: string, quantity: real, price: Option<real>,
                        timeInForce: Option<string>, clientOrderId: Option<string>,
                        info: Option<SymbolInfo>): Result<Request, Error>
  {
    RequestVerdict(symbol, side, "LIMIT", quantity, price, None, timeInForce, clientOrderId, info)
  }

  /** `place_order`'s verdict: the case-insensitive dispatch, then the chosen side's validation. */
  function LimitOrderVerdict(symbol: string, side: string, quantity: real, price: Option<real>,
                             timeInForce: Option<string>, clientOrderId: Option<string>,
                             info: Option<SymbolInfo>): Result<Request, Error>
  {
    match DispatchSide(side)
    case None => Err(ValidationError(StrategySide(side)))
    case Some(dispatched) => LimitVerdict(dispatched, symbol, quantity, price, timeInForce, clientOrderId, info)
  }

  /** The order type a limit order names, and its native counterpart. */
  lemma LimitKind()
    ensures ValidateOrderType("LIMIT") == Ok(Limit)
    ensures NativeType(Limit) == Ok("LIMIT") && TakesTimeInForce("LIMIT")
  {
    OrderTypeRoundTrip(Limit);
  }

  /** What a limit order sends: native type LIMIT on the given side with the
      quantity, the price and the validated time in force, and no stop price. */
  lemma LimitRequestShape(side: string, symbol: string, quantity: real, price: Option<real>,
                          timeInForce: Option<string>, clientOrderId: Option<string>,
                          info: Option<SymbolInfo>, request: Request)
    requires side in {"BUY", "SELL"}
    requires LimitVerdict(side, symbol, quantity, price, timeInForce, clientOrderId, info) == Ok(request)
    ensures price.Some? && "price" in request && request["price"] == Num(price.value)
    ensures "type" in request && request["type"] == Str("LIMIT")
    ensures "side" in request && request["side"] == Str(side)
    ensures "quantity" in request && request["quantity"] == Num(quantity)
    ensures "timeInForce" in request && request["timeInForce"] == Str(ValidateTimeInForce(timeInForce).value)
    ensures "stopPrice" !in request
    ensures "newClientOrderId" in request <==> clientOrderId.Some? && clientOrderId.value != ""
    ensures "newClientOrderId" in request ==> request["newClientOrderId"] == Str(clientOrderId.value)
  {
    LimitKind();
    ValidateSideFixesCanonical(side);
    AcceptedAs(symbol, side, "LIMIT", quantity, price, None, timeInForce, clientOrderId, info, Limit, request);
    BuildRequestShape(ValidateSymbol(symbol).value, side, "LIMIT", quantity, price, None,
      ValidateTimeInForce(timeInForce).value, clientOrderId);
  }

  /** `LimitOrder`: a handle on the client. */
  class LimitOrder {
    const client: Client

    constructor(client: Client)
      ensures this.client == client
    {
      this.client := client;
    }

    /** Validate on one side, and place only what validated. */
    method PlaceSide(side: string, symbol: string, quantity: real, price: Option<real>,
                     timeInForce: Option<string>, clientOrderId: Option<string>,
                     info: Option<SymbolInfo>) returns (r: Result<Receipt, Error>)
      modifies client
      ensures PlacedOnce(LimitVerdict(side, symbol, quantity, price, timeInForce, clientOrderId, info),
                         client.placeReply, old(client.placed), client.placed, r)
      ensures client.created == old(client.created)
    {
      var request := ValidateOrderRequest(symbol, side, "LIMIT", quantity, price, None, timeInForce, clientOrderId, info);
      if request.Err? {
        return Err(request.error);
      }
      r := client.PlaceOrder(request.value);
    }

    /** `place_order`: BUY or SELL in any letter case, anything else refused before placement. */
    method PlaceOrder(symbol: string, side: string, quantity: real, price: Option<real>,
                      timeInForce: Option<string>, clientOrderId: Option<string>,
                      info: Option<SymbolInfo>) returns (r: Result<Receipt, Error>)
      modifies client
      ensures PlacedOnce(LimitOrderVerdict(symbol, side, quantity, price, timeInForce, clientOrderId, info),
                         client.placeReply, old(client.placed), client.placed, r)
      ensures client.created == old(client.created)
    {
      var dispatched := DispatchSide(side);
      if dispatched.Some? {
        r := PlaceSide(dispatched.value, symbol, quantity, price, timeInForce, clientOrderId, info);
      } else {
        r := Err(ValidationError(StrategySide(side)));
      }
    }
  }
}
