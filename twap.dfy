/** TWAP: a total quantity split into equal child orders (market, or limit
    at a fixed price) spread over a duration. The wall clock is two oracles
    indexed by slot: the seconds elapsed since the start and the Unix time
    stamp put into the child's client id. Pauses are returned, not taken. */
module Twap {
  import opened Wrappers
  import opened Text
  import opened Domain
  import opened Placement
  import opened Slots
  import MarketOrders
  import LimitOrders

  /** The arguments of `execute_twap`. */
  datatype TwapParams = TwapParams(
    symbol: string,
    side: string,
    totalQuantity: real,
    durationMinutes: int,
    orderType: string,          // "MARKET" selects market children, anything else limit children
    price: Option<real>,
    timeInForce: string,
    info: Option<SymbolInfo>)

  /** The checks made before any order, in their order; `None` when all pass. */
  function ParamsCheck(p: TwapParams): (r: Option<Reason>)
    ensures r.None? <==>
      p.durationMinutes > 0 && p.totalQuantity > 0.0 && !(p.orderType == "LIMIT" && p.price.None?)
    ensures p.durationMinutes <= 0 ==> r == Some(DurationNotPositive)
    ensures p.durationMinutes > 0 && p.totalQuantity <= 0.0 ==> r == Some(TotalNotPositive)
    ensures r.Some? ==> r.value in {DurationNotPositive, TotalNotPositive, TwapLimitWithoutPrice}
  {
    if p.durationMinutes <= 0 then Some(DurationNotPositive)
    else if p.totalQuantity <= 0.0 then Some(TotalNotPositive)
    else if p.orderType == "LIMIT" && p.price.None? then Some(TwapLimitWithoutPrice)
    else None
  }

  /** Half the minutes, kept between 5 and 20 child orders. */
  function NumOrders(durationMinutes: int): (n: int)
    ensures 5 <= n <= 20
    ensures n == 5 <==> durationMinutes < 12
    ensures n == 20 <==> durationMinutes >= 40
    ensures 12 <= durationMinutes < 40 ==> 2 * n <= durationMinutes < 2 * n + 2
  {
    MinInt(MaxInt(5, durationMinutes / 2), 20)
  }

  /** More minutes never mean fewer child orders. */
  lemma NumOrdersMonotone(d: int, e: int)
    requires d <= e
    ensures NumOrders(d) <= NumOrders(e)
  {
  }

  /** The whole seconds between child orders (floor division). */
  function IntervalSeconds(durationMinutes: int): (s: int)
    ensures durationMinutes >= 1 ==> s >= 1
  {
    var n := NumOrders(durationMinutes);
    if durationMinutes >= 1 then
      FloorDivAtLeastOne(durationMinutes * 60, n);
      FloorDiv(durationMinutes * 60, n)
    else
      FloorDiv(durationMinutes * 60, n)
  }

  /** The child orders spaced one interval apart fit in the duration, and
      one more interval each would overrun it. */
  lemma IntervalFits(durationMinutes: int)
    ensures var n, s := NumOrders(durationMinutes), IntervalSeconds(durationMinutes);
      n * s <= durationMinutes * 60 < n * (s + 1)
  {
    var n, s := NumOrders(durationMinutes), IntervalSeconds(durationMinutes);
    FloorDivBounds(durationMinutes * 60, n);
    assert n * (s + 1) == n * s + n;
  }

  /** Python's `a // b` for a positive divisor: the quotient rounded down. */
  function FloorDiv(a: int, b: int): int
    requires b > 0
    decreases if a < 0 then 1 else 0, if a < 0 then -a else a
  {
    if a < 0 then FloorDiv(a + b, b) - 1
    else if a < b then 0
    else FloorDiv(a - b, b) + 1
  }

  /** `a // b` is the largest multiple count of `b` that stays within `a`. */
  lemma {:induction false} FloorDivBounds(a: int, b: int)
    requires b > 0
    ensures b * FloorDiv(a, b) <= a < b * FloorDiv(a, b) + b
    decreases if a < 0 then 1 else 0, if a < 0 then -a else a
  {
    if a < 0 {
      FloorDivBounds(a + b, b);
      var q := FloorDiv(a + b, b);
      assert b * (q - 1) == b * q - b;
    } else if a >= b {
      FloorDivBounds(a - b, b);
      var q := FloorDiv(a - b, b);
      assert b * (q + 1) == b * q + b;
    }
  }

  lemma {:induction false} FloorDivNonNegative(a: int, b: int)
    requires a >= 0 && b > 0
    ensures FloorDiv(a, b) >= 0
    decreases a
  {
    if a >= b {
      FloorDivNonNegative(a - b, b);
    }
  }

  lemma FloorDivAtLeastOne(a: int, b: int)
    requires 0 < b <= a
    ensures FloorDiv(a, b) >= 1
  {
    FloorDivNonNegative(a - b, b);
  }

  lemma MultiplyMonotone(c: int, x: int, y: int)
    requires c >= 0 && x <= y
    ensures c * x <= c * y
  {
    assert c * y - c * x == c * (y - x);
  }

  /** Every child order's share of the total. */
  function QuantityPerOrder(totalQuantity: real, durationMinutes: int): (q: real)
    ensures totalQuantity > 0.0 ==> q > 0.0
  {
    totalQuantity / NumOrders(durationMinutes) as real
  }

  /** The child orders' shares add up to the total. */
  lemma QuantitySharesTotal(totalQuantity: real, durationMinutes: int)
    ensures QuantityPerOrder(totalQuantity, durationMinutes) * NumOrders(durationMinutes) as real == totalQuantity
  {
  }

  /** The time left (the end time less the time now) is gone once `elapsed`
      seconds have passed: the remaining time is zero or less. */
  predicate DeadlinePassed(p: TwapParams, elapsed: real) {
    (p.durationMinutes * 60) as real - elapsed <= 0.0
  }

  /** The order type every child carries on the exchange. */
  function ChildType(p: TwapParams): string {
    if p.orderType == "MARKET" then "MARKET" else "LIMIT"
  }

  /** What slot `i` hands to the market or limit order handler, and that handler's verdict. */
  function ChildOrder(p: TwapParams, stamp: nat, i: nat): Result<Request, Error> {
    var clientOrderId := Some(ChildOrderId("TWAP", p.symbol, stamp, i));
    var quantity := QuantityPerOrder(p.totalQuantity, p.durationMinutes);
    if p.orderType == "MARKET" then
      MarketOrders.MarketOrderVerdict(p.symbol, p.side, quantity, clientOrderId, p.info)
    else
      LimitOrders.LimitOrderVerdict(p.symbol, p.side, quantity, p.price, Some(p.timeInForce), clientOrderId, p.info)
  }

  /** A child request as TWAP means it: the share of the total, the requested side, the child type. */
  ghost predicate ChildRequest(p: TwapParams, request: Request) {
    && "quantity" in request && request["quantity"] == Num(QuantityPerOrder(p.totalQuantity, p.durationMinutes))
    && "side" in request && request["side"] == Str(Upper(p.side))
    && "type" in request && request["type"] == Str(ChildType(p))
  }

  /** An accepted child is a TWAP child request carrying its slot's client id. */
  lemma ChildOrderShape(p: TwapParams, stamp: nat, i: nat, request: Request)
    requires ChildOrder(p, stamp, i) == Ok(request)
    ensures ChildRequest(p, request)
    ensures "newClientOrderId" in request && request["newClientOrderId"] == Str(ChildOrderId("TWAP", p.symbol, stamp, i))
  {
    var clientOrderId := Some(ChildOrderId("TWAP", p.symbol, stamp, i));
    var quantity := QuantityPerOrder(p.totalQuantity, p.durationMinutes);
    assert DispatchSide(p.side).Some?;
    var side := DispatchSide(p.side).value;
    if p.orderType == "MARKET" {
      MarketOrders.MarketRequestShape(side, p.symbol, quantity, clientOrderId, p.info, request);
    } else {
      LimitOrders.LimitRequestShape(side, p.symbol, quantity, p.price, Some(p.timeInForce), clientOrderId, p.info, request);
    }
  }

  /** Every slot's verdict, the clock read in that slot stamping the client id. */
  function Children(p: TwapParams, clock: nat -> nat): nat -> Result<Request, Error> {
    (k: nat) => ChildOrder(p, clock(k), k)
  }

  /** `child` gives slot `k` the verdict its handler gives it. */
  ghost predicate ChildAt(p: TwapParams, clock: nat -> nat, child: nat -> Result<Request, Error>, k: nat) {
    child(k) == ChildOrder(p, clock(k), k)
  }

  /** Every request a slot would place is a TWAP child request. */
  ghost predicate AllChildRequests(p: TwapParams, child: nat -> Result<Request, Error>) {
    forall k: nat :: child(k).Ok? ==> ChildRequest(p, child(k).value)
  }

  lemma ChildrenShape(p: TwapParams, clock: nat -> nat)
    ensures AllChildRequests(p, Children(p, clock))
  {
    forall k: nat | Children(p, clock)(k).Ok?
      ensures ChildRequest(p, Children(p, clock)(k).value)
    {
      ChildOrderShape(p, clock(k), k, Children(p, clock)(k).value);
    }
  }

  /** Whether slot `k` is still reached: the duration is not used up yet. */
  function Reached(p: TwapParams, elapsed: nat -> real): nat -> bool {
    (k: nat) => !DeadlinePassed(p, elapsed(k))
  }

  /** The pause after a filled slot: one interval, except after the last slot. */
  function Pause(p: TwapParams): nat -> seq<real> {
    (k: nat) => if k < NumOrders(p.durationMinutes) - 1 then [IntervalSeconds(p.durationMinutes) as real] else []
  }

  /** The loop of `execute_twap` from slot `i` on, `calls` placements having
      been made before: it stops after the last slot or at the first slot
      reached once the duration is used up. */
  function TwapFrom(p: TwapParams, elapsed: nat -> real, child: nat -> Result<Request, Error>,
                    reply: nat -> Result<Receipt, Error>, i: nat, calls: nat): Trace
  {
    SlotsFrom(NumOrders(p.durationMinutes), Reached(p, elapsed), child, Pause(p), reply, i, calls)
  }

  /** `execute_twap`: the parameter checks, then the loop from the first slot. */
  function TwapRun(p: TwapParams, elapsed: nat -> real, child: nat -> Result<Request, Error>,
                   reply: nat -> Result<Receipt, Error>, calls: nat): Result<Trace, Error>
  {
    match ParamsCheck(p)
    case Some(reason) => Err(ValidationError(reason))
    case None => Ok(TwapFrom(p, elapsed, child, reply, 0, calls))
  }

  /** The loop's bookkeeping over one slot reached in time, in TWAP's terms:
      what that slot places, receives and pauses moves from the rest of the
      run to what is done. */
  lemma TwapAdvance(p: TwapParams, elapsed: nat -> real, child: nat -> Result<Request, Error>,
                    reply: nat -> Result<Receipt, Error>, i: nat, calls: nat, whole: Trace,
                    receipts: seq<Receipt>, sleeps: seq<real>, sent: seq<Request>,
                    receipts': seq<Receipt>, sleeps': seq<real>, sent': seq<Request>, calls': nat)
    requires i < NumOrders(p.durationMinutes) && !DeadlinePassed(p, elapsed(i))
    requires var rest := TwapFrom(p, elapsed, child, reply, i, calls);
      whole == Trace(receipts + rest.receipts, sleeps + rest.sleeps, sent + rest.sent)
    requires calls' == if child(i).Ok? then calls + 1 else calls
    requires sent' == if child(i).Ok? then sent + [child(i).value] else sent
    requires receipts' == if child(i).Ok? && reply(calls).Ok? then receipts + [reply(calls).value] else receipts
    requires sleeps' ==
      if child(i).Ok? && reply(calls).Ok? && i < NumOrders(p.durationMinutes) - 1
      then sleeps + [IntervalSeconds(p.durationMinutes) as real] else sleeps
    ensures var rest := TwapFrom(p, elapsed, child, reply, i + 1, calls');
      whole == Trace(receipts' + rest.receipts, sleeps' + rest.sleeps, sent' + rest.sent)
  {
    assert sleeps + [] == sleeps;
    SlotsAdvance(NumOrders(p.durationMinutes), Reached(p, elapsed), child, Pause(p), reply, i, calls, whole,
                 receipts, sleeps, sent, receipts', sleeps', sent', calls');
  }

  /** A loop stopped after the last slot or at the deadline has nothing left to do. */
  lemma TwapDone(p: TwapParams, elapsed: nat -> real, child: nat -> Result<Request, Error>,
                 reply: nat -> Result<Receipt, Error>, i: nat, calls: nat, whole: Trace,
                 receipts: seq<Receipt>, sleeps: seq<real>, sent: seq<Request>)
    requires i >= NumOrders(p.durationMinutes) || DeadlinePassed(p, elapsed(i))
    requires var rest := TwapFrom(p, elapsed, child, reply, i, calls);
      whole == Trace(receipts + rest.receipts, sleeps + rest.sleeps, sent + rest.sent)
    ensures whole == Trace(receipts, sleeps, sent)
  {
    SlotsDone(NumOrders(p.durationMinutes), Reached(p, elapsed), child, Pause(p), reply, i, calls, whole,
              receipts, sleeps, sent);
  }

  /** Every pause is one interval long. */
  lemma PausesAreIntervals(p: TwapParams)
    ensures forall k: nat :: Pause(p)(k) == [] || Pause(p)(k) == [IntervalSeconds(p.durationMinutes) as real]
  {
  }

  /** Every request placed is a child request; at most one per remaining slot; at
      most one receipt per request; every pause is the interval, and only a
      receipt is followed by one. */
  lemma TwapFromBounds(p: TwapParams, elapsed: nat -> real, child: nat -> Result<Request, Error>,
                       reply: nat -> Result<Receipt, Error>, i: nat, calls: nat)
    ensures var t := TwapFrom(p, elapsed, child, reply, i, calls);
      && |t.receipts| <= |t.sent|
      && (i <= NumOrders(p.durationMinutes) ==> |t.sent| <= NumOrders(p.durationMinutes) - i)
      && |t.sleeps| <= |t.receipts|
      && (forall k :: 0 <= k < |t.sleeps| ==> t.sleeps[k] == IntervalSeconds(p.durationMinutes) as real)
      && (AllChildRequests(p, child) ==> forall k :: 0 <= k < |t.sent| ==> ChildRequest(p, t.sent[k]))
  {
    var n := NumOrders(p.durationMinutes);
    PausesAreIntervals(p);
    SentBound(n, Reached(p, elapsed), child, Pause(p), reply, i, calls);
    SleepBound(n, Reached(p, elapsed), child, Pause(p), reply, i, calls, IntervalSeconds(p.durationMinutes) as real);
    if AllChildRequests(p, child) {
      SentSatisfy(n, Reached(p, elapsed), child, Pause(p), reply, i, calls, r => ChildRequest(p, r));
    }
  }

  /** The pauses of the slots from `i` on: one fewer than the slots. */
  lemma {:induction false} TwapPausesCount(p: TwapParams, i: nat)
    requires i < NumOrders(p.durationMinutes)
    ensures |Pauses(NumOrders(p.durationMinutes), Pause(p), i)| == NumOrders(p.durationMinutes) - i - 1
    decreases NumOrders(p.durationMinutes) - i
  {
    if i + 1 < NumOrders(p.durationMinutes) {
      TwapPausesCount(p, i + 1);
    }
  }

  /** When every slot is reached in time, every child validates and every
      placement succeeds, each remaining slot yields one receipt and every
      receipt but the last is followed by a pause. */
  lemma TwapFromAllFilled(p: TwapParams, elapsed: nat -> real, child: nat -> Result<Request, Error>,
                          reply: nat -> Result<Receipt, Error>, i: nat, calls: nat)
    requires i < NumOrders(p.durationMinutes)
    requires forall k :: i <= k < NumOrders(p.durationMinutes) ==>
      !DeadlinePassed(p, elapsed(k)) && child(k).Ok?
    requires forall k :: calls <= k < calls + NumOrders(p.durationMinutes) - i ==> reply(k).Ok?
    ensures var t := TwapFrom(p, elapsed, child, reply, i, calls);
      && |t.sent| == |t.receipts| == NumOrders(p.durationMinutes) - i
      && |t.sleeps| == NumOrders(p.durationMinutes) - i - 1
  {
    AllFilled(NumOrders(p.durationMinutes), Reached(p, elapsed), child, Pause(p), reply, i, calls);
    TwapPausesCount(p, i);
  }

  /** Nothing is placed from the first slot reached after the duration is used up. */
  lemma TwapDeadlineStops(p: TwapParams, elapsed: nat -> real, child: nat -> Result<Request, Error>,
                          reply: nat -> Result<Receipt, Error>, i: nat, calls: nat, j: nat)
    requires i <= j && DeadlinePassed(p, elapsed(j))
    ensures |TwapFrom(p, elapsed, child, reply, i, calls).sent| <= j - i
  {
    SlotsStopAtClosed(NumOrders(p.durationMinutes), Reached(p, elapsed), child, Pause(p), reply, i, calls, j);
  }

  /** A side that is neither BUY nor SELL passes the TWAP checks and then places nothing. */
  lemma TwapUnknownSide(p: TwapParams, elapsed: nat -> real, clock: nat -> nat,
                        reply: nat -> Result<Receipt, Error>, calls: nat)
    requires ParamsCheck(p).None? && DispatchSide(p.side).None?
    ensures TwapRun(p, elapsed, Children(p, clock), reply, calls) == Ok(Trace([], [], []))
  {
    forall k: nat
      ensures Children(p, clock)(k).Err?
    {
      assert Children(p, clock)(k) == ChildOrder(p, clock(k), k);
    }
    AllRefused(NumOrders(p.durationMinutes), Reached(p, elapsed), Children(p, clock), Pause(p), reply, 0, calls);
  }

  /** A run that passes the checks places at most one child per slot, so
      (by SharesWithinTotal) never more than the total quantity. */
  lemma TwapRunWithinTotal(p: TwapParams, elapsed: nat -> real, child: nat -> Result<Request, Error>,
                           reply: nat -> Result<Receipt, Error>, calls: nat)
    requires TwapRun(p, elapsed, child, reply, calls).Ok?
    ensures p.totalQuantity > 0.0
    ensures |TwapRun(p, elapsed, child, reply, calls).value.sent| <= NumOrders(p.durationMinutes)
  {
    assert ParamsCheck(p).None?;
    SentBound(NumOrders(p.durationMinutes), Reached(p, elapsed), child, Pause(p), reply, 0, calls);
  }

  /** At most one share per child order never exceeds the total. */
  lemma SharesWithinTotal(totalQuantity: real, durationMinutes: int, count: nat)
    requires totalQuantity > 0.0 && count <= NumOrders(durationMinutes)
    ensures count as real * QuantityPerOrder(totalQuantity, durationMinutes) <= totalQuantity
  {
    ShareBound(totalQuantity, NumOrders(durationMinutes) as real, count as real);
  }

  /** The slot a simulation lists: its 1-based index, its planned offset in
      seconds, the quantity, the limit price (for LIMIT only) and the client id. */
  datatype SimulatedOrder = SimulatedOrder(
    orderIndex: int, timeOffsetSeconds: int, quantity: real, price: Option<real>, clientOrderId: string)

  /** The dictionary `simulate_twap` returns. */
  datatype TwapSimulation = TwapSimulation(
    symbol: string, side: string, totalQuantity: real, durationMinutes: int, orderType: string,
    numOrders: int, intervalSeconds: int, quantityPerOrder: real, orders: seq<SimulatedOrder>)

  /** Slot `i` of a simulation, `stamp` being the clock read while listing it. */
  function SimulatedSlot(symbol: string, durationMinutes: int, totalQuantity: real, orderType: string,
                         price: Option<real>, stamp: nat, i: nat): SimulatedOrder
  {
    SimulatedOrder(i + 1, i * IntervalSeconds(durationMinutes), QuantityPerOrder(totalQuantity, durationMinutes),
                   if orderType == "LIMIT" then price else None, ChildOrderId("TWAP", symbol, stamp, i))
  }

  /** `TWAPOrder`: a handle on the client. */
  class TwapOrder {
    const client: Client

    constructor(client: Client)
      ensures this.client == client
    {
      this.client := client;
    }

    /** One slot reached in time: the child order through the market or the
        limit order handler, its receipt kept if it was filled, and the pause
        after it unless it is the last slot; a refused or failed child is skipped. */
    method PlaceSlot(p: TwapParams, clock: nat -> nat, i: nat, receipts: seq<Receipt>, sleeps: seq<real>)
      returns (receipts': seq<Receipt>, sleeps': seq<real>)
      modifies client
      ensures var verdict := Children(p, clock)(i);
        var filled := verdict.Ok? && client.placeReply(|old(client.placed)|).Ok?;
        && client.placed == old(client.placed) + (if verdict.Ok? then [verdict.value] else [])
        && receipts' == (if filled then receipts + [client.placeReply(|old(client.placed)|).value] else receipts)
        && sleeps' ==
             (if filled && i < NumOrders(p.durationMinutes) - 1 then sleeps + [IntervalSeconds(p.durationMinutes) as real]
              else sleeps)
      ensures client.created == old(client.created)
    {
      var clientOrderId := Some(ChildOrderId("TWAP", p.symbol, clock(i), i));
      var quantity := QuantityPerOrder(p.totalQuantity, p.durationMinutes);
      var response;
      if p.orderType == "MARKET" {
        var handler := new MarketOrders.MarketOrder(client);
        response := handler.PlaceOrder(p.symbol, p.side, quantity, clientOrderId, p.info);
      } else {
        var handler := new LimitOrders.LimitOrder(client);
        response := handler.PlaceOrder(p.symbol, p.side, quantity, p.price, Some(p.timeInForce), clientOrderId, p.info);
      }
      assert Children(p, clock)(i) == ChildOrder(p, clock(i), i);
      receipts', sleeps' := receipts, sleeps;
      if response.Ok? {
        receipts' := receipts + [response.value];
        if i < NumOrders(p.durationMinutes) - 1 {
          sleeps' := sleeps + [IntervalSeconds(p.durationMinutes) as real];
        }
      }
    }

    /** PlaceSlot together with the loop's bookkeeping: the slot's placement,
        receipt and pause move from the rest of the run to what is done. */
    method AdvanceSlot(p: TwapParams, elapsed: nat -> real, clock: nat -> nat, ghost child: nat -> Result<Request, Error>,
                       i: nat, receipts: seq<Receipt>, sleeps: seq<real>, ghost sent: seq<Request>,
                       ghost start: seq<Request>, ghost whole: Trace)
      returns (receipts': seq<Receipt>, sleeps': seq<real>, ghost sent': seq<Request>)
      requires ChildAt(p, clock, child, i)
      requires i < NumOrders(p.durationMinutes) && !DeadlinePassed(p, elapsed(i))
      requires client.placed == start + sent
      requires var rest := TwapFrom(p, elapsed, child, client.placeReply, i, |client.placed|);
        whole == Trace(receipts + rest.receipts, sleeps + rest.sleeps, sent + rest.sent)
      modifies client
      ensures client.placed == start + sent'
      ensures client.created == old(client.created)
      ensures var rest := TwapFrom(p, elapsed, child, client.placeReply, i + 1, |client.placed|);
        whole == Trace(receipts' + rest.receipts, sleeps' + rest.sleeps, sent' + rest.sent)
    {
      ghost var calls := |client.placed|;
      receipts', sleeps' := PlaceSlot(p, clock, i, receipts, sleeps);
      sent' := sent + if child(i).Ok? then [child(i).value] else [];
      TwapAdvance(p, elapsed, child, client.placeReply, i, calls, whole,
                  receipts, sleeps, sent, receipts', sleeps', sent', |client.placed|);
    }

    /** `execute_twap`: a refused parameter raises before anything is placed;
        otherwise the receipts, the pauses and the placements are those of TwapRun. */
    method ExecuteTwap(p: TwapParams, elapsed: nat -> real, clock: nat -> nat)
      returns (r: Result<seq<Receipt>, Error>, sleeps: seq<real>)
      modifies client
      ensures match TwapRun(p, elapsed, Children(p, clock), client.placeReply, |old(client.placed)|)
        case Err(e) => r == Err(e) && sleeps == [] && client.placed == old(client.placed)
        case Ok(t) => r == Ok(t.receipts) && sleeps == t.sleeps && client.placed == old(client.placed) + t.sent
      ensures client.created == old(client.created)
    {
      var check := ParamsCheck(p);
      if check.Some? {
        return Err(ValidationError(check.value)), [];
      }
      var receipts;
      receipts, sleeps := RunSlots(p, elapsed, clock, Children(p, clock));
      r := Ok(receipts);
    }

    /** The loop over the slots of `execute_twap`, once its parameters are accepted. */
    method RunSlots(p: TwapParams, elapsed: nat -> real, clock: nat -> nat, ghost child: nat -> Result<Request, Error>)
      returns (receipts: seq<Receipt>, sleeps: seq<real>)
      requires forall k: nat :: ChildAt(p, clock, child, k)
      modifies client
      ensures var t := TwapFrom(p, elapsed, child, client.placeReply, 0, |old(client.placed)|);
        receipts == t.receipts && sleeps == t.sleeps && client.placed == old(client.placed) + t.sent
      ensures client.created == old(client.created)
    {
      var n := NumOrders(p.durationMinutes);
      receipts, sleeps := [], [];
      ghost var sent: seq<Request> := [];
      ghost var whole := TwapFrom(p, elapsed, child, client.placeReply, 0, |client.placed|);
      ghost var stop := n;
      for i := 0 to n
        invariant client.placed == old(client.placed) + sent
        invariant client.created == old(client.created)
        invariant var rest := TwapFrom(p, elapsed, child, client.placeReply, i, |client.placed|);
          whole == Trace(receipts + rest.receipts, sleeps + rest.sleeps, sent + rest.sent)
      {
        if DeadlinePassed(p, elapsed(i)) {
          stop := i;
          break;
        }
        receipts, sleeps, sent := AdvanceSlot(p, elapsed, clock, child, i, receipts, sleeps, sent, old(client.placed), whole);
      }
      TwapDone(p, elapsed, child, client.placeReply, stop, |client.placed|, whole, receipts, sleeps, sent);
    }

    /** `simulate_twap`: the schedule without placing anything and without the
        parameter checks. */
    method SimulateTwap(symbol: string, side: string, totalQuantity: real, durationMinutes: int,
                        orderType: string, price: Option<real>, clock: nat -> nat)
      returns (s: TwapSimulation)
      ensures s.numOrders == NumOrders(durationMinutes)
      ensures s.intervalSeconds == IntervalSeconds(durationMinutes)
      ensures s.quantityPerOrder == QuantityPerOrder(totalQuantity, durationMinutes)
      ensures s.symbol == symbol && s.side == side && s.totalQuantity == totalQuantity
      ensures s.durationMinutes == durationMinutes && s.orderType == orderType
      ensures |s.orders| == s.numOrders
      ensures forall i :: 0 <= i < |s.orders| ==>
        s.orders[i] == SimulatedSlot(symbol, durationMinutes, totalQuantity, orderType, price, clock(i), i)
    {
      var n := NumOrders(durationMinutes);
      var interval := IntervalSeconds(durationMinutes);
      var quantity := QuantityPerOrder(totalQuantity, durationMinutes);
      var orders: seq<SimulatedOrder> := [];
      var i: nat := 0;
      while i < n
        invariant i <= n
        invariant |orders| == i
        invariant forall k :: 0 <= k < i ==>
          orders[k] == SimulatedSlot(symbol, durationMinutes, totalQuantity, orderType, price, clock(k), k)
      {
        var order := SimulatedOrder(i + 1, i * interval, quantity, if orderType == "LIMIT" then price else None,
                                    ChildOrderId("TWAP", symbol, clock(i), i));
        orders := orders + [order];
        i := i + 1;
      }
      s := TwapSimulation(symbol, side, totalQuantity, durationMinutes, orderType, n, interval, quantity, orders);
    }
  }

  /** For a positive duration the simulated slots start at zero, are one
      interval apart and each one's interval ends within the duration. */
  lemma SimulationFitsDuration(symbol: string, durationMinutes: int, totalQuantity: real, orderType: string,
                               price: Option<real>, stamp: nat, i: nat)
    requires durationMinutes >= 1 && i < NumOrders(durationMinutes)
    ensures var o := SimulatedSlot(symbol, durationMinutes, totalQuantity, orderType, price, stamp, i);
      && 0 <= o.timeOffsetSeconds
      && o.timeOffsetSeconds + IntervalSeconds(durationMinutes) <= durationMinutes * 60
  {
    IntervalFits(durationMinutes);
    OffsetWithin(i, IntervalSeconds(durationMinutes), NumOrders(durationMinutes), durationMinutes * 60);
  }

  lemma OffsetWithin(i: int, s: int, n: int, limit: int)
    requires 0 <= i < n && s >= 0 && n * s <= limit
    ensures 0 <= i * s && i * s + s <= limit
  {
    MultiplyMonotone(s, i + 1, n);
    assert i * s + s == (i + 1) * s == s * (i + 1);
    assert s * n == n * s;
  }

  /** The simulation's slots are the executed slots: same client id, quantity
      and (for LIMIT) price as the child the execution would send in that slot
      with the same clock reading. */
  lemma SimulationMatchesExecution(p: TwapParams, stamp: nat, i: nat, request: Request)
    requires p.orderType == "LIMIT" && p.price.Some?
    requires ChildOrder(p, stamp, i) == Ok(request)
    ensures var o := SimulatedSlot(p.symbol, p.durationMinutes, p.totalQuantity, p.orderType, p.price, stamp, i);
      && "quantity" in request && request["quantity"] == Num(o.quantity)
      && "newClientOrderId" in request && request["newClientOrderId"] == Str(o.clientOrderId)
      && "price" in request && o.price.Some? && request["price"] == Num(o.price.value)
  {
    var clientOrderId := Some(ChildOrderId("TWAP", p.symbol, stamp, i));
    var quantity := QuantityPerOrder(p.totalQuantity, p.durationMinutes);
    ChildOrderShape(p, stamp, i, request);
    assert DispatchSide(p.side).Some?;
    LimitOrders.LimitRequestShape(DispatchSide(p.side).value, p.symbol, quantity, p.price, Some(p.timeInForce),
                                  clientOrderId, p.info, request);
  }
}
