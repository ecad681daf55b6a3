/** The synthetic one-cancels-the-other order. The futures market has no native
    OCO, so the strategy sends two raw orders straight to the library client:
    a LIMIT take-profit on the given side, then a STOP_MARKET stop-loss on the
    opposite side. Nothing is validated, nothing is retried, nothing is rolled
    back, and the receipt is synthesised from the first leg's reply. */
module Oco {
  import opened Wrappers
  import opened Text
  import opened Domain
  import opened Placement

  /** The stop-loss side: SELL for a BUY, BUY for anything else. */
  function OppositeSide(side: string): (o: string)
    ensures o in {"BUY", "SELL"}
    ensures o == "SELL" <==> side == "BUY"
  {
    if side == "BUY" then "SELL" else "BUY"
  }

  /** On the two real sides the stop leg always opposes the limit leg, and
      taking the opposite twice gives the side back. */
  lemma OppositeSideInvolutive(side: string)
    requires side in {"BUY", "SELL"}
    ensures OppositeSide(side) != side
    ensures OppositeSide(OppositeSide(side)) == side
  {
  }

  /** A client order id is attached only when it is a non-empty string. */
  predicate HasClientId(clientOrderId: Option<string>) {
    clientOrderId.Some? && clientOrderId.value != ""
  }

  /** The keyword arguments of the first, take-profit leg. */
  function LimitLeg(symbol: string, side: string, quantity: real, price: real,
                    clientOrderId: Option<string>): Request
  {
    var leg := map["symbol" := Str(symbol), "side" := Str(Upper(side)), "type" := Str("LIMIT"),
                   "quantity" := Num(quantity), "price" := Num(price), "timeInForce" := Str("GTC")];
    if HasClientId(clientOrderId) then leg["newClientOrderId" := Str(clientOrderId.value + "_limit")] else leg
  }

  /** The keyword arguments of the second, stop-loss leg. */
  function StopLeg(symbol: string, side: string, quantity: real, stopPrice: real,
                   clientOrderId: Option<string>): Request
  {
    var leg := map["symbol" := Str(symbol), "side" := Str(OppositeSide(Upper(side))), "type" := Str("STOP_MARKET"),
                   "quantity" := Num(quantity), "stopPrice" := Num(stopPrice)];
    if HasClientId(clientOrderId) then leg["newClientOrderId" := Str(clientOrderId.value + "_stop")] else leg
  }

  /** The take-profit leg: a GTC LIMIT on the upper-cased side at the given
      price and quantity, carrying `<id>_limit` exactly when an id is given. */
  lemma LimitLegShape(symbol: string, side: string, quantity: real, price: real, clientOrderId: Option<string>)
    ensures var leg := LimitLeg(symbol, side, quantity, price, clientOrderId);
      && leg.Keys <= {"symbol", "side", "type", "quantity", "price", "timeInForce", "newClientOrderId"}
      && "symbol" in leg && leg["symbol"] == Str(symbol)
      && "side" in leg && leg["side"] == Str(Upper(side))
      && "type" in leg && leg["type"] == Str("LIMIT")
      && "quantity" in leg && leg["quantity"] == Num(quantity)
      && "price" in leg && leg["price"] == Num(price)
      && "timeInForce" in leg && leg["timeInForce"] == Str("GTC")
      && "stopPrice" !in leg
      && ("newClientOrderId" in leg <==> HasClientId(clientOrderId))
      && (HasClientId(clientOrderId) ==> leg["newClientOrderId"] == Str(clientOrderId.value + "_limit"))
  {
  }

  /** The stop-loss leg: a STOP_MARKET on the opposite side triggered at the
      stop price, with neither a price nor a time in force, carrying `<id>_stop`
      exactly when an id is given. */
  lemma StopLegShape(symbol: string, side: string, quantity: real, stopPrice: real, clientOrderId: Option<string>)
    ensures var leg := StopLeg(symbol, side, quantity, stopPrice, clientOrderId);
      && leg.Keys <= {"symbol", "side", "type", "quantity", "stopPrice", "newClientOrderId"}
      && "symbol" in leg && leg["symbol"] == Str(symbol)
      && "side" in leg && leg["side"] == Str(OppositeSide(Upper(side)))
      && "type" in leg && leg["type"] == Str("STOP_MARKET")
      && "quantity" in leg && leg["quantity"] == Num(quantity)
      && "stopPrice" in leg && leg["stopPrice"] == Num(stopPrice)
      && "price" !in leg && "timeInForce" !in leg
      && ("newClientOrderId" in leg <==> HasClientId(clientOrderId))
      && (HasClientId(clientOrderId) ==> leg["newClientOrderId"] == Str(clientOrderId.value + "_stop"))
  {
  }

  /** The two legs never share a client order id. */
  lemma LegIdsDistinct(id: string)
    ensures id + "_limit" != id + "_stop"
  {
    assert (id + "_limit")[|id| + 1] == 'l';
    assert (id + "_stop")[|id| + 1] == 's';
  }

  /** The receipt returned: id, status, fills and time from the limit leg's
      reply (0, "UNKNOWN", 0 and 0 where missing), everything else from the inputs. */
  function OcoReceipt(symbol: string, side: string, quantity: real, price: real, stopPrice: real,
                      clientOrderId: Option<string>, limitReply: RawReply): (receipt: Receipt)
    ensures receipt.orderType == "OCO" && receipt.side == Upper(side) && receipt.symbol == symbol
    ensures receipt.quantity == quantity && receipt.price == Some(price) && receipt.stopPrice == Some(stopPrice)
    ensures receipt.timeInForce == Some("GTC") && receipt.clientOrderId == clientOrderId
    ensures limitReply.orderId.Some? ==> receipt.orderId == limitReply.orderId.value
    ensures limitReply.orderId.None? ==> receipt.orderId == 0
    ensures limitReply.status.Some? ==> receipt.status == limitReply.status.value
    ensures limitReply.status.None? ==> receipt.status == "UNKNOWN"
    ensures limitReply.executedQty.Some? ==> receipt.executedQty == limitReply.executedQty.value
    ensures limitReply.executedQty.None? ==> receipt.executedQty == 0.0
    ensures limitReply.updateTime.Some? ==> receipt.transactTime == limitReply.updateTime.value
    ensures limitReply.updateTime.None? ==> receipt.transactTime == 0
    ensures receipt.avgPrice == limitReply.avgPrice
  {
    Receipt(
      orderId := limitReply.orderId.GetOr(0),
      symbol := symbol,
      status := limitReply.status.GetOr("UNKNOWN"),
      side := Upper(side),
      orderType := "OCO",
      quantity := quantity,
      price := Some(price),
      stopPrice := Some(stopPrice),
      timeInForce := Some("GTC"),
      executedQty := limitReply.executedQty.GetOr(0.0),
      avgPrice := limitReply.avgPrice,
      clientOrderId := clientOrderId,
      transactTime := limitReply.updateTime.GetOr(0))
  }

  /** What one OCO placement amounts to: its outcome and the raw requests sent, in order. */
  datatype OcoRun = OcoRun(result: Result<Receipt, Error>, sent: seq<Request>)

  /** place_oco_order against a client whose n-th raw call answers `reply(n)`,
      `before` raw calls having been made already. */
  function OcoPlan(symbol: string, side: string, quantity: real, price: real, stopPrice: real,
                   clientOrderId: Option<string>, reply: nat -> Result<RawReply, Error>, before: nat): OcoRun
  {
    if Upper(side) !in {"BUY", "SELL"} then OcoRun(Err(ValidationError(StrategySide(side))), [])
    else
      var limitLeg := LimitLeg(symbol, side, quantity, price, clientOrderId);
      var stopLeg := StopLeg(symbol, side, quantity, stopPrice, clientOrderId);
      match reply(before)
      case Err(e) => OcoRun(Err(e), [limitLeg])
      case Ok(limitReply) =>
        match reply(before + 1)
        case Err(e) => OcoRun(Err(e), [limitLeg, stopLeg])
        case Ok(_) => OcoRun(Ok(OcoReceipt(symbol, side, quantity, price, stopPrice, clientOrderId, limitReply)),
                             [limitLeg, stopLeg])
  }

  /** The ordering promise: a bad side sends nothing; otherwise the limit leg
      goes first, the stop leg is sent only after the limit leg was accepted,
      and success needs both. */
  lemma OcoOrdering(symbol: string, side: string, quantity: real, price: real, stopPrice: real,
                    clientOrderId: Option<string>, reply: nat -> Result<RawReply, Error>, before: nat)
    ensures var run := OcoPlan(symbol, side, quantity, price, stopPrice, clientOrderId, reply, before);
      && (Upper(side) !in {"BUY", "SELL"} <==> run.sent == [])
      && (Upper(side) !in {"BUY", "SELL"} ==> run.result == Err(ValidationError(StrategySide(side))))
      && (run.sent != [] ==> run.sent[0] == LimitLeg(symbol, side, quantity, price, clientOrderId))
      && (|run.sent| == 2 <==> run.sent != [] && reply(before).Ok?)
      && (|run.sent| == 2 ==> run.sent[1] == StopLeg(symbol, side, quantity, stopPrice, clientOrderId))
      && (run.result.Ok? <==> |run.sent| == 2 && reply(before + 1).Ok?)
  {
  }

  /** The two legs are not atomic: when the stop leg is refused, the limit
      leg stays placed and the stop leg's error is raised. */
  lemma OcoNotAtomic(symbol: string, side: string, quantity: real, price: real, stopPrice: real,
                     clientOrderId: Option<string>, reply: nat -> Result<RawReply, Error>, before: nat)
    requires Upper(side) in {"BUY", "SELL"}
    requires reply(before).Ok? && reply(before + 1).Err?
    ensures var run := OcoPlan(symbol, side, quantity, price, stopPrice, clientOrderId, reply, before);
      && run.result == Err(reply(before + 1).error)
      && run.sent == [LimitLeg(symbol, side, quantity, price, clientOrderId),
                      StopLeg(symbol, side, quantity, stopPrice, clientOrderId)]
  {
  }

  /** No amount is checked: whatever the quantity and prices, a good side and
      two accepting replies give the synthesised receipt. */
  lemma OcoSkipsValidation(symbol: string, side: string, quantity: real, price: real, stopPrice: real,
                           clientOrderId: Option<string>, reply: nat -> Result<RawReply, Error>, before: nat)
    requires Upper(side) in {"BUY", "SELL"}
    requires reply(before).Ok? && reply(before + 1).Ok?
    ensures OcoPlan(symbol, side, quantity, price, stopPrice, clientOrderId, reply, before).result ==
      Ok(OcoReceipt(symbol, side, quantity, price, stopPrice, clientOrderId, reply(before).value))
  {
  }

  /** `OCOOrder`: a handle on the client. */
  class OcoOrder {
    const client: Client

    constructor(client: Client)
      ensures this.client == client
    {
      this.client := client;
    }

    /** place_oco_order. The stop-limit price and time in force and the symbol
        information are accepted and ignored, as in the source. */
    method PlaceOcoOrder(symbol: string, side: string, quantity: real, price: real, stopPrice: real,
                         stopLimitPrice: Option<real>, stopLimitTimeInForce: string,
                         clientOrderId: Option<string>, info: Option<SymbolInfo>) returns (r: Result<Receipt, Error>)
      modifies client
      ensures var run := OcoPlan(symbol, side, quantity, price, stopPrice, clientOrderId,
                                 client.createReply, |old(client.created)|);
        r == run.result && client.created == old(client.created) + run.sent
      ensures client.placed == old(client.placed)
    {
      var upper := Upper(side);
      if upper != "BUY" && upper != "SELL" {
        return Err(ValidationError(StrategySide(side)));
      }
      var limitLeg := LimitLeg(symbol, side, quantity, price, clientOrderId);
      var limitReply := client.CreateOrder(limitLeg);
      if limitReply.Err? {
        return Err(limitReply.error);
      }
      var stopLeg := StopLeg(symbol, side, quantity, stopPrice, clientOrderId);
      var stopReply := client.CreateOrder(stopLeg);
      if stopReply.Err? {
        return Err(stopReply.error);
      }
      r := Ok(OcoReceipt(symbol, side, quantity, price, stopPrice, clientOrderId, limitReply.value));
    }

    /** place_buy_oco: take profit above, stop loss below, on the BUY side. */
    method PlaceBuyOco(symbol: string, quantity: real, takeProfitPrice: real, stopLossPrice: real,
                       stopLimitPrice: Option<real>, stopLimitTimeInForce: string,
                       clientOrderId: Option<string>, info: Option<SymbolInfo>) returns (r: Result<Receipt, Error>)
      modifies client
      ensures var run := OcoPlan(symbol, "BUY", quantity, takeProfitPrice, stopLossPrice, clientOrderId,
                                 client.createReply, |old(client.created)|);
        r == run.result && client.created == old(client.created) + run.sent
      ensures client.placed == old(client.placed)
    {
      r := PlaceOcoOrder(symbol, "BUY", quantity, takeProfitPrice, stopLossPrice, stopLimitPrice,
                         stopLimitTimeInForce, clientOrderId, info);
    }

    /** place_sell_oco: the same on the SELL side. */
    method PlaceSellOco(symbol: string, quantity: real, takeProfitPrice: real, stopLossPrice: real,
                        stopLimitPrice: Option<real>, stopLimitTimeInForce: string,
                        clientOrderId: Option<string>, info: Option<SymbolInfo>) returns (r: Result<Receipt, Error>)
      modifies client
      ensures var run := OcoPlan(symbol, "SELL", quantity, takeProfitPrice, stopLossPrice, clientOrderId,
                                 client.createReply, |old(client.created)|);
        r == run.result && client.created == old(client.created) + run.sent
      ensures client.placed == old(client.placed)
    {
      r := PlaceOcoOrder(symbol, "SELL", quantity, takeProfitPrice, stopLossPrice, stopLimitPrice,
                         stopLimitTimeInForce, clientOrderId, info);
    }
  }

  /** The fixed-side wrappers always pass the side check and send both legs
      when the limit leg is accepted, the stop leg on the other side. */
  lemma FixedSidesSendOppositeStops(symbol: string, quantity: real, price: real, stopPrice: real,
                                    clientOrderId: Option<string>)
    ensures var buy := StopLeg(symbol, "BUY", quantity, stopPrice, clientOrderId);
      "side" in buy && buy["side"] == Str("SELL")
    ensures var sell := StopLeg(symbol, "SELL", quantity, stopPrice, clientOrderId);
      "side" in sell && sell["side"] == Str("BUY")
  {
    UpperNoop("BUY");
    UpperNoop("SELL");
  }
}
