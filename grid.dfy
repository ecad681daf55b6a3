/** Grid orders: a total quantity split equally over limit orders at evenly
    spaced price levels between a minimum and a maximum price, ascending from
    the minimum for BUY and descending from the maximum otherwise. The wall
    clock is an oracle indexed by level, giving the Unix time stamp put into
    each child's client id. Pauses are returned, not taken.

    As written, both log calls of a level pass `level=`, which repeats a
    parameter of the logger and raises a TypeError, so `create_grid` never gets
    past its first level (GridAsWrittenRaises). GridRun, and the methods of
    GridOrder that follow it, model the evidently intended loop, in which the
    level is logged under a name that repeats none (GridRunWithoutClash). */
module Grid {
  import opened Wrappers
  import opened Text
  import opened Domain
  import opened Placement
  import opened Slots
  import LimitOrders
  import Logger

  /** The arguments of `create_grid`, the price range unpacked. */
  datatype GridParams = GridParams(
    symbol: string,
    side: string,
    totalQuantity: real,
    minPrice: real,
    maxPrice: real,
    numLevels: int,
    orderType: string,          // only "MARKET" is refused; the children are limit orders whatever it says
    timeInForce: string,
    info: Option<SymbolInfo>)

  /** The checks made before any order, in their order; `None` when all pass. */
  function GridCheck(p: GridParams): (r: Option<Reason>)
    ensures r.None? <==>
      p.minPrice < p.maxPrice && p.numLevels > 0 && p.totalQuantity > 0.0 && p.orderType != "MARKET"
    ensures p.minPrice >= p.maxPrice ==> r == Some(PriceRangeEmpty)
    ensures p.minPrice < p.maxPrice && p.numLevels <= 0 ==> r == Some(LevelsNotPositive)
    ensures r.Some? ==> r.value in {PriceRangeEmpty, LevelsNotPositive, TotalNotPositive, GridWithMarket}
  {
    if p.minPrice >= p.maxPrice then Some(PriceRangeEmpty)
    else if p.numLevels <= 0 then Some(LevelsNotPositive)
    else if p.totalQuantity <= 0.0 then Some(TotalNotPositive)
    else if p.orderType == "MARKET" then Some(GridWithMarket)
    else None
  }

  /** The distance between neighbouring levels; a single level has none and divides by zero. */
  function PriceStep(minPrice: real, maxPrice: real, numLevels: int): real
    requires numLevels != 1
  {
    (maxPrice - minPrice) / (numLevels - 1) as real
  }

  /** Every level's share of the total. */
  function QuantityPerLevel(totalQuantity: real, numLevels: int): real
    requires numLevels != 0
  {
    totalQuantity / numLevels as real
  }

  /** The limit price of level `i`: up from the minimum for BUY (in any letter
      case, not trimmed), down from the maximum for any other side. */
  function LevelPrice(side: string, minPrice: real, maxPrice: real, step: real, i: int): real {
    if Upper(side) == "BUY" then minPrice + i as real * step else maxPrice - i as real * step
  }

  /** The levels' shares add up to the total. */
  lemma QuantitySharesTotal(totalQuantity: real, numLevels: int)
    requires numLevels != 0
    ensures QuantityPerLevel(totalQuantity, numLevels) * numLevels as real == totalQuantity
  {
  }

  /** The steps between the first and the last level span the whole range. */
  lemma PriceStepSpans(minPrice: real, maxPrice: real, numLevels: int)
    requires numLevels != 1
    ensures PriceStep(minPrice, maxPrice, numLevels) * (numLevels - 1) as real == maxPrice - minPrice
  {
  }

  /** `i` steps of a positive size stay within `n - 1` steps. */
  lemma StepsWithin(step: real, i: int, n: int)
    requires step > 0.0 && 0 <= i <= n - 1
    ensures 0.0 <= i as real * step <= (n - 1) as real * step
  {
    assert (n - 1) as real * step - i as real * step == ((n - 1) - i) as real * step;
  }

  /** With at least two levels over a non-empty range, every level's price
      lies within the range. */
  lemma LevelPriceWithinRange(side: string, minPrice: real, maxPrice: real, numLevels: int, i: int)
    requires minPrice < maxPrice && numLevels >= 2 && 0 <= i < numLevels
    ensures var price := LevelPrice(side, minPrice, maxPrice, PriceStep(minPrice, maxPrice, numLevels), i);
      minPrice <= price <= maxPrice
  {
    var step := PriceStep(minPrice, maxPrice, numLevels);
    PriceStepSpans(minPrice, maxPrice, numLevels);
    StepsWithin(step, i, numLevels);
  }

  /** The first level sits at the minimum for BUY and at the maximum otherwise,
      the last level at the opposite end. */
  lemma LevelPriceEnds(side: string, minPrice: real, maxPrice: real, numLevels: int)
    requires numLevels >= 2
    ensures var step := PriceStep(minPrice, maxPrice, numLevels);
      && LevelPrice(side, minPrice, maxPrice, step, 0) == (if Upper(side) == "BUY" then minPrice else maxPrice)
      && LevelPrice(side, minPrice, maxPrice, step, numLevels - 1) == (if Upper(side) == "BUY" then maxPrice else minPrice)
  {
    PriceStepSpans(minPrice, maxPrice, numLevels);
  }

  /** Over a non-empty range a BUY grid climbs and any other grid descends, level by level. */
  lemma LevelPriceMonotone(side: string, minPrice: real, maxPrice: real, numLevels: int, i: int, j: int)
    requires minPrice < maxPrice && numLevels >= 2 && i < j
    ensures var step := PriceStep(minPrice, maxPrice, numLevels);
      Upper(side) == "BUY" ==> LevelPrice(side, minPrice, maxPrice, step, i) < LevelPrice(side, minPrice, maxPrice, step, j)
    ensures var step := PriceStep(minPrice, maxPrice, numLevels);
      Upper(side) != "BUY" ==> LevelPrice(side, minPrice, maxPrice, step, i) > LevelPrice(side, minPrice, maxPrice, step, j)
  {
    var step := PriceStep(minPrice, maxPrice, numLevels);
    assert j as real * step - i as real * step == (j - i) as real * step;
  }

  /** What level `i` hands to the limit order handler, and that handler's
      verdict; `step` and `quantity` are the run's price step and share. */
  function ChildOrder(p: GridParams, step: real, quantity: real, stamp: nat, i: nat): Result<Request, Error> {
    LimitOrders.LimitOrderVerdict(p.symbol, p.side, quantity, Some(LevelPrice(p.side, p.minPrice, p.maxPrice, step, i)),
                                  Some(p.timeInForce), Some(ChildOrderId("GRID", p.symbol, stamp, i)), p.info)
  }

  /** Every level's verdict, the clock read at that level stamping the client id. */
  function Children(p: GridParams, step: real, quantity: real, clock: nat -> nat): nat -> Result<Request, Error> {
    (k: nat) => ChildOrder(p, step, quantity, clock(k), k)
  }

  /** A child request as a grid means it: a LIMIT order for one share of the
      total, on the requested side, at a price within the range. */
  ghost predicate ChildRequest(p: GridParams, request: Request) {
    && p.numLevels != 0
    && "quantity" in request && request["quantity"] == Num(QuantityPerLevel(p.totalQuantity, p.numLevels))
    && "side" in request && request["side"] == Str(Upper(p.side))
    && "type" in request && request["type"] == Str("LIMIT")
    && "price" in request && request["price"].Num? && p.minPrice <= request["price"].x <= p.maxPrice
  }

  /** An accepted child is a grid child request at its level's price with its level's client id. */
  lemma ChildOrderShape(p: GridParams, stamp: nat, i: nat, request: Request)
    requires p.minPrice < p.maxPrice && p.numLevels >= 2 && i < p.numLevels
    requires ChildOrder(p, PriceStep(p.minPrice, p.maxPrice, p.numLevels),
                        QuantityPerLevel(p.totalQuantity, p.numLevels), stamp, i) == Ok(request)
    ensures ChildRequest(p, request)
    ensures "price" in request &&
      request["price"] == Num(LevelPrice(p.side, p.minPrice, p.maxPrice, PriceStep(p.minPrice, p.maxPrice, p.numLevels), i))
    ensures "newClientOrderId" in request && request["newClientOrderId"] == Str(ChildOrderId("GRID", p.symbol, stamp, i))
  {
    var step := PriceStep(p.minPrice, p.maxPrice, p.numLevels);
    assert DispatchSide(p.side).Some?;
    LimitOrders.LimitRequestShape(DispatchSide(p.side).value, p.symbol, QuantityPerLevel(p.totalQuantity, p.numLevels),
                                  Some(LevelPrice(p.side, p.minPrice, p.maxPrice, step, i)), Some(p.timeInForce),
                                  Some(ChildOrderId("GRID", p.symbol, stamp, i)), p.info, request);
    LevelPriceWithinRange(p.side, p.minPrice, p.maxPrice, p.numLevels, i);
  }

  /** Every request one of the levels would place is a grid child request. */
  ghost predicate AllChildRequests(p: GridParams, child: nat -> Result<Request, Error>) {
    forall k: nat :: k < p.numLevels && child(k).Ok? ==> ChildRequest(p, child(k).value)
  }

  lemma ChildrenShape(p: GridParams, clock: nat -> nat)
    requires p.minPrice < p.maxPrice && p.numLevels >= 2
    ensures AllChildRequests(p, Children(p, PriceStep(p.minPrice, p.maxPrice, p.numLevels),
                                         QuantityPerLevel(p.totalQuantity, p.numLevels), clock))
  {
    var child := Children(p, PriceStep(p.minPrice, p.maxPrice, p.numLevels), QuantityPerLevel(p.totalQuantity, p.numLevels), clock);
    forall k: nat | k < p.numLevels && child(k).Ok?
      ensures ChildRequest(p, child(k).value)
    {
      ChildOrderShape(p, clock(k), k, child(k).value);
    }
  }

  /** Every level is reached: the grid has no deadline. */
  function EveryLevel(): nat -> bool {
    (k: nat) => true
  }

  /** The pause after every filled level, the last one included. */
  function Pause(): nat -> seq<real> {
    (k: nat) => [0.1]
  }

  /** The loop of `create_grid` from level `i` on, `calls` placements having been made before. */
  function GridFrom(p: GridParams, child: nat -> Result<Request, Error>, reply: nat -> Result<Receipt, Error>,
                    i: nat, calls: nat): Trace
    requires p.numLevels >= 0
  {
    SlotsFrom(p.numLevels, EveryLevel(), child, Pause(), reply, i, calls)
  }

  /** The evidently intended `create_grid`: the parameter checks, the step
      (which a single level cannot have), then the loop from the first level. */
  function GridRun(p: GridParams, clock: nat -> nat, reply: nat -> Result<Receipt, Error>, calls: nat): Result<Trace, Error> {
    match GridCheck(p)
    case Some(reason) => Err(ValidationError(reason))
    case None =>
      if p.numLevels == 1 then Err(ZeroDivisionError)
      else
        var child := Children(p, PriceStep(p.minPrice, p.maxPrice, p.numLevels), QuantityPerLevel(p.totalQuantity, p.numLevels), clock);
        Ok(GridFrom(p, child, reply, 0, calls))
  }

  /** A refused parameter is reported as such, and a single level fails on
      the step; only a grid of at least two levels reaches the loop. */
  lemma GridRunOutcome(p: GridParams, clock: nat -> nat, reply: nat -> Result<Receipt, Error>, calls: nat)
    ensures GridRun(p, clock, reply, calls).Ok? <==> GridCheck(p).None? && p.numLevels >= 2
    ensures GridCheck(p).Some? ==> GridRun(p, clock, reply, calls) == Err(ValidationError(GridCheck(p).value))
    ensures GridCheck(p).None? && p.numLevels == 1 ==> GridRun(p, clock, reply, calls) == Err(ZeroDivisionError)
  {
  }

  /** Every request placed is a grid child request; at most one per level and
      one receipt per request; every receipt is followed by one pause of 0.1 s. */
  lemma GridFromBounds(p: GridParams, child: nat -> Result<Request, Error>, reply: nat -> Result<Receipt, Error>,
                       i: nat, calls: nat)
    requires p.numLevels >= 0
    ensures var t := GridFrom(p, child, reply, i, calls);
      && |t.receipts| <= |t.sent|
      && (i <= p.numLevels ==> |t.sent| <= p.numLevels - i)
      && |t.sleeps| == |t.receipts|
      && (forall k :: 0 <= k < |t.sleeps| ==> t.sleeps[k] == 0.1)
      && (AllChildRequests(p, child) ==> forall k :: 0 <= k < |t.sent| ==> ChildRequest(p, t.sent[k]))
  {
    SentBound(p.numLevels, EveryLevel(), child, Pause(), reply, i, calls);
    SleepBound(p.numLevels, EveryLevel(), child, Pause(), reply, i, calls, 0.1);
    OnePausePerReceipt(p.numLevels, EveryLevel(), child, Pause(), reply, i, calls, 0.1);
    if AllChildRequests(p, child) {
      SentSatisfy(p.numLevels, EveryLevel(), child, Pause(), reply, i, calls, r => ChildRequest(p, r));
    }
  }

  /** The pauses of the levels from `i` on: one per level. */
  lemma {:induction false} GridPausesCount(count: nat, i: nat)
    requires i <= count
    ensures |Pauses(count, Pause(), i)| == count - i
    decreases count - i
  {
    if i < count {
      GridPausesCount(count, i + 1);
    }
  }

  /** When every child validates and every placement succeeds, every level
      yields one receipt and one pause. */
  lemma GridFromAllFilled(p: GridParams, child: nat -> Result<Request, Error>, reply: nat -> Result<Receipt, Error>,
                          calls: nat)
    requires p.numLevels >= 0
    requires forall k :: 0 <= k < p.numLevels ==> child(k).Ok?
    requires forall k :: calls <= k < calls + p.numLevels ==> reply(k).Ok?
    ensures var t := GridFrom(p, child, reply, 0, calls);
      |t.sent| == |t.receipts| == |t.sleeps| == p.numLevels
  {
    AllFilled(p.numLevels, EveryLevel(), child, Pause(), reply, 0, calls);
    GridPausesCount(p.numLevels, 0);
  }

  /** A side that is neither BUY nor SELL passes the grid checks and then places nothing. */
  lemma GridUnknownSide(p: GridParams, clock: nat -> nat, reply: nat -> Result<Receipt, Error>, calls: nat)
    requires GridCheck(p).None? && p.numLevels >= 2 && DispatchSide(p.side).None?
    ensures GridRun(p, clock, reply, calls) == Ok(Trace([], [], []))
  {
    var child := Children(p, PriceStep(p.minPrice, p.maxPrice, p.numLevels), QuantityPerLevel(p.totalQuantity, p.numLevels), clock);
    forall k: nat
      ensures child(k).Err?
    {
      assert child(k) == ChildOrder(p, PriceStep(p.minPrice, p.maxPrice, p.numLevels),
                                    QuantityPerLevel(p.totalQuantity, p.numLevels), clock(k), k);
    }
    AllRefused(p.numLevels, EveryLevel(), child, Pause(), reply, 0, calls);
  }

  /** A run that reaches the loop places at most one child per level, so
      (by SharesWithinTotal) never more than the total quantity. */
  lemma GridRunWithinLevels(p: GridParams, clock: nat -> nat, reply: nat -> Result<Receipt, Error>, calls: nat)
    requires GridRun(p, clock, reply, calls).Ok?
    ensures p.totalQuantity > 0.0 && p.numLevels >= 2
    ensures |GridRun(p, clock, reply, calls).value.sent| <= p.numLevels
  {
    var child := Children(p, PriceStep(p.minPrice, p.maxPrice, p.numLevels), QuantityPerLevel(p.totalQuantity, p.numLevels), clock);
    SentBound(p.numLevels, EveryLevel(), child, Pause(), reply, 0, calls);
  }

  /** At most one share per level never exceeds the total. */
  lemma SharesWithinTotal(totalQuantity: real, numLevels: int, count: nat)
    requires totalQuantity > 0.0 && 0 < numLevels && count <= numLevels
    ensures count as real * QuantityPerLevel(totalQuantity, numLevels) <= totalQuantity
  {
    ShareBound(totalQuantity, numLevels as real, count as real);
  }

  /** The keyword names of the call logging a filled level, the level's
      number named `levelKey`. */
  function PlacedNames(levelKey: string): seq<string> {
    [levelKey, "total_levels", "price", "quantity", "order_id", "status"]
  }

  /** The keyword names of the handler's call logging a failed level. */
  function FailedNames(levelKey: string): seq<string> {
    [levelKey, "total_levels", "price", "error"]
  }

  /** The keyword names of the outer handlers' calls, which log and re-raise. */
  const HandlerNames: seq<string> := ["error", "symbol", "side", "total_quantity", "price_range", "num_levels"]

  /** What a call of `create_grid` leaves behind: the error it raises, if
      any, and the receipts kept, the pauses taken and the requests placed. */
  datatype GridOutcome = GridOutcome(raised: Option<Error>, trace: Trace)

  /** The loop of `create_grid` from level `i` on, with its two log calls,
      the level's number logged under the keyword `levelKey`. A filled level's
      receipt is kept before it is logged; a level whose placement or log call
      fails goes to the handler, and when the handler's own log call fails,
      that error leaves the loop. */
  function GridLoop(p: GridParams, levelKey: string, child: nat -> Result<Request, Error>,
                    reply: nat -> Result<Receipt, Error>, i: nat, calls: nat): GridOutcome
    decreases p.numLevels - i
  {
    if i >= p.numLevels then GridOutcome(None, Trace([], [], []))
    else
      var sent := if child(i).Ok? then [child(i).value] else [];
      var placed := if child(i).Ok? then reply(calls) else Err(child(i).error);
      var kept := if placed.Ok? then [placed.value] else [];
      if placed.Ok? && Logger.BindError(PlacedNames(levelKey)).None? then
        var rest := GridLoop(p, levelKey, child, reply, i + 1, calls + |sent|);
        GridOutcome(rest.raised, Trace(kept + rest.trace.receipts, [0.1] + rest.trace.sleeps, sent + rest.trace.sent))
      else match Logger.BindError(FailedNames(levelKey))
        case Some(e) => GridOutcome(Some(e), Trace(kept, [], sent))
        case None =>
          var rest := GridLoop(p, levelKey, child, reply, i + 1, calls + |sent|);
          GridOutcome(rest.raised, Trace(kept + rest.trace.receipts, rest.trace.sleeps, sent + rest.trace.sent))
  }

  /** `create_grid` with the level's number logged under `levelKey`: the
      checks and the step, then the loop; an error leaving the loop reaches
      the outer handler, which logs it and raises it again. */
  function GridRunWith(p: GridParams, levelKey: string, clock: nat -> nat, reply: nat -> Result<Receipt, Error>,
                       calls: nat): GridOutcome
  {
    match GridCheck(p)
    case Some(reason) => GridOutcome(Some(ValidationError(reason)), Trace([], [], []))
    case None =>
      if p.numLevels == 1 then GridOutcome(Some(ZeroDivisionError), Trace([], [], []))
      else
        var child := Children(p, PriceStep(p.minPrice, p.maxPrice, p.numLevels), QuantityPerLevel(p.totalQuantity, p.numLevels), clock);
        var run := GridLoop(p, levelKey, child, reply, 0, calls);
        match run.raised
        case None => run
        case Some(e) => GridOutcome(Some(Logger.BindError(HandlerNames).GetOr(e)), run.trace)
  }

  /** `create_grid` as the source writes it: both log calls of a level pass `level=`. */
  function GridRunAsWritten(p: GridParams, clock: nat -> nat, reply: nat -> Result<Receipt, Error>, calls: nat): GridOutcome {
    GridRunWith(p, "level", clock, reply, calls)
  }

  /** As written, every grid that passes its checks raises a TypeError at
      its first level: the first child, if accepted, is the only request
      placed, no pause is taken and no list of receipts is returned; the
      list holds the first receipt, appended before the failing log call. */
  lemma GridAsWrittenRaises(p: GridParams, clock: nat -> nat, reply: nat -> Result<Receipt, Error>, calls: nat)
    requires GridCheck(p).None? && p.numLevels >= 2
    ensures var run := GridRunAsWritten(p, clock, reply, calls);
      var first := ChildOrder(p, PriceStep(p.minPrice, p.maxPrice, p.numLevels),
                              QuantityPerLevel(p.totalQuantity, p.numLevels), clock(0), 0);
      && run.raised == Some(DuplicateArgumentError)
      && run.trace.sent == (if first.Ok? then [first.value] else [])
      && run.trace.sleeps == []
      && run.trace.receipts == (if first.Ok? && reply(calls).Ok? then [reply(calls).value] else [])
  {
    var child := Children(p, PriceStep(p.minPrice, p.maxPrice, p.numLevels), QuantityPerLevel(p.totalQuantity, p.numLevels), clock);
    assert PlacedNames("level")[0] in Logger.Parameters;
    assert FailedNames("level")[0] in Logger.Parameters;
    assert forall i :: 0 <= i < |HandlerNames| ==> HandlerNames[i] !in Logger.Parameters;
    assert child(0) == ChildOrder(p, PriceStep(p.minPrice, p.maxPrice, p.numLevels),
                                  QuantityPerLevel(p.totalQuantity, p.numLevels), clock(0), 0);
  }

  /** With a level keyword that names no parameter, neither log call raises,
      and the loop is the skip-on-failure loop GridFrom with nothing raised. */
  lemma {:induction false} GridLoopWithoutClash(p: GridParams, levelKey: string, child: nat -> Result<Request, Error>,
                                                reply: nat -> Result<Receipt, Error>, i: nat, calls: nat)
    requires p.numLevels >= 0 && levelKey !in Logger.Parameters
    ensures GridLoop(p, levelKey, child, reply, i, calls) == GridOutcome(None, GridFrom(p, child, reply, i, calls))
    decreases p.numLevels - i
  {
    assert forall k :: 0 <= k < |PlacedNames(levelKey)| ==> PlacedNames(levelKey)[k] !in Logger.Parameters;
    assert forall k :: 0 <= k < |FailedNames(levelKey)| ==> FailedNames(levelKey)[k] !in Logger.Parameters;
    if i < p.numLevels {
      SlotsStep(p.numLevels, EveryLevel(), child, Pause(), reply, i, calls);
      GridLoopWithoutClash(p, levelKey, child, reply, i + 1, calls + if child(i).Ok? then 1 else 0);
    }
  }

  /** The evidently intended `create_grid`, the level logged under a keyword
      that names no parameter, is GridRun: a refusal or a single level raises
      with nothing placed, and otherwise nothing is raised and the run is GridFrom. */
  lemma GridRunWithoutClash(p: GridParams, levelKey: string, clock: nat -> nat, reply: nat -> Result<Receipt, Error>,
                            calls: nat)
    requires levelKey !in Logger.Parameters
    ensures GridRunWith(p, levelKey, clock, reply, calls) ==
      match GridRun(p, clock, reply, calls)
      case Err(e) => GridOutcome(Some(e), Trace([], [], []))
      case Ok(t) => GridOutcome(None, t)
  {
    if GridCheck(p).None? && p.numLevels >= 2 {
      var child := Children(p, PriceStep(p.minPrice, p.maxPrice, p.numLevels), QuantityPerLevel(p.totalQuantity, p.numLevels), clock);
      GridLoopWithoutClash(p, levelKey, child, reply, 0, calls);
    }
  }

  /** One level of a simulation: its 1-based number, price, quantity and client id. */
  datatype SimulatedLevel = SimulatedLevel(level: int, price: real, quantity: real, clientOrderId: string)

  /** The dictionary `simulate_grid` returns. */
  datatype GridSimulation = GridSimulation(
    symbol: string, side: string, totalQuantity: real, minPrice: real, maxPrice: real, numLevels: int,
    priceStep: real, quantityPerLevel: real, levels: seq<SimulatedLevel>)

  /** Level `i` of a simulation, `stamp` being the clock read while listing it. */
  function SimulatedAt(symbol: string, side: string, minPrice: real, maxPrice: real, step: real, quantity: real,
                       stamp: nat, i: nat): SimulatedLevel
  {
    SimulatedLevel(i + 1, LevelPrice(side, minPrice, maxPrice, step, i), quantity, ChildOrderId("GRID", symbol, stamp, i))
  }

  /** The simulation's levels are the executed levels: the child a grid run
      sends at a level, with the same clock reading, has that level's price,
      quantity and client id. */
  lemma SimulationMatchesExecution(p: GridParams, stamp: nat, i: nat, request: Request)
    requires p.minPrice < p.maxPrice && p.numLevels >= 2 && i < p.numLevels
    requires ChildOrder(p, PriceStep(p.minPrice, p.maxPrice, p.numLevels),
                        QuantityPerLevel(p.totalQuantity, p.numLevels), stamp, i) == Ok(request)
    ensures var o := SimulatedAt(p.symbol, p.side, p.minPrice, p.maxPrice, PriceStep(p.minPrice, p.maxPrice, p.numLevels),
                                 QuantityPerLevel(p.totalQuantity, p.numLevels), stamp, i);
      && "price" in request && request["price"] == Num(o.price)
      && "quantity" in request && request["quantity"] == Num(o.quantity)
      && "newClientOrderId" in request && request["newClientOrderId"] == Str(o.clientOrderId)
  {
    ChildOrderShape(p, stamp, i, request);
  }

  /** `GridOrder`: a handle on the client. */
  class GridOrder {
    const client: Client

    constructor(client: Client)
      ensures this.client == client
    {
      this.client := client;
    }

    /** One level: its limit order through the limit order handler, the
        receipt kept and a pause of 0.1 s taken if it was filled; a refused
        or failed child is skipped. */
    method PlaceLevel(p: GridParams, step: real, quantity: real, clock: nat -> nat, i: nat,
                      receipts: seq<Receipt>, sleeps: seq<real>)
      returns (receipts': seq<Receipt>, sleeps': seq<real>)
      modifies client
      ensures var verdict := Children(p, step, quantity, clock)(i);
        var filled := verdict.Ok? && client.placeReply(|old(client.placed)|).Ok?;
        && client.placed == old(client.placed) + (if verdict.Ok? then [verdict.value] else [])
        && receipts' == (if filled then receipts + [client.placeReply(|old(client.placed)|).value] else receipts)
        && sleeps' == (if filled then sleeps + [0.1] else sleeps)
      ensures client.created == old(client.created)
    {
      var price := LevelPrice(p.side, p.minPrice, p.maxPrice, step, i);
      var handler := new LimitOrders.LimitOrder(client);
      var response := handler.PlaceOrder(p.symbol, p.side, quantity, Some(price), Some(p.timeInForce),
                                         Some(ChildOrderId("GRID", p.symbol, clock(i), i)), p.info);
      assert Children(p, step, quantity, clock)(i) == ChildOrder(p, step, quantity, clock(i), i);
      receipts', sleeps' := receipts, sleeps;
      if response.Ok? {
        receipts' := receipts + [response.value];
        sleeps' := sleeps + [0.1];
      }
    }

    /** PlaceLevel together with the loop's bookkeeping: the level's placement,
        receipt and pause move from the rest of the run to what is done. */
    method AdvanceLevel(p: GridParams, step: real, quantity: real, clock: nat -> nat, i: nat,
                        receipts: seq<Receipt>, sleeps: seq<real>, ghost sent: seq<Request>,
                        ghost start: seq<Request>, ghost whole: Trace)
      returns (receipts': seq<Receipt>, sleeps': seq<real>, ghost sent': seq<Request>)
      requires 0 <= i < p.numLevels
      requires client.placed == start + sent
      requires var rest := GridFrom(p, Children(p, step, quantity, clock), client.placeReply, i, |client.placed|);
        whole == Trace(receipts + rest.receipts, sleeps + rest.sleeps, sent + rest.sent)
      modifies client
      ensures client.placed == start + sent'
      ensures client.created == old(client.created)
      ensures var rest := GridFrom(p, Children(p, step, quantity, clock), client.placeReply, i + 1, |client.placed|);
        whole == Trace(receipts' + rest.receipts, sleeps' + rest.sleeps, sent' + rest.sent)
    {
      ghost var child := Children(p, step, quantity, clock);
      ghost var calls := |client.placed|;
      receipts', sleeps' := PlaceLevel(p, step, quantity, clock, i, receipts, sleeps);
      sent' := sent + if child(i).Ok? then [child(i).value] else [];
      assert Pause()(i) == [0.1] && EveryLevel()(i);
      SlotsAdvance(p.numLevels, EveryLevel(), child, Pause(), client.placeReply, i, calls, whole,
                   receipts, sleeps, sent, receipts', sleeps', sent', |client.placed|);
    }

    /** The loop over the levels of `create_grid`, once its parameters are accepted. */
    method RunLevels(p: GridParams, step: real, quantity: real, clock: nat -> nat)
      returns (receipts: seq<Receipt>, sleeps: seq<real>)
      requires p.numLevels >= 0
      modifies client
      ensures var t := GridFrom(p, Children(p, step, quantity, clock), client.placeReply, 0, |old(client.placed)|);
        receipts == t.receipts && sleeps == t.sleeps && client.placed == old(client.placed) + t.sent
      ensures client.created == old(client.created)
    {
      receipts, sleeps := [], [];
      ghost var sent: seq<Request> := [];
      ghost var whole := GridFrom(p, Children(p, step, quantity, clock), client.placeReply, 0, |client.placed|);
      var i: nat := 0;
      while i < p.numLevels
        invariant i <= p.numLevels
        invariant client.placed == old(client.placed) + sent
        invariant client.created == old(client.created)
        invariant var rest := GridFrom(p, Children(p, step, quantity, clock), client.placeReply, i, |client.placed|);
          whole == Trace(receipts + rest.receipts, sleeps + rest.sleeps, sent + rest.sent)
      {
        receipts, sleeps, sent := AdvanceLevel(p, step, quantity, clock, i, receipts, sleeps, sent, old(client.placed), whole);
        i := i + 1;
      }
      SlotsDone(p.numLevels, EveryLevel(), Children(p, step, quantity, clock), Pause(), client.placeReply, i,
                |client.placed|, whole, receipts, sleeps, sent);
    }

    /** The evidently intended `create_grid` (GridRunWithoutClash): a refused parameter raises before anything is placed,
        and so does the step of a single level; otherwise the receipts, the
        pauses and the placements are those of GridRun. */
    method CreateGrid(p: GridParams, clock: nat -> nat)
      returns (r: Result<seq<Receipt>, Error>, sleeps: seq<real>)
      modifies client
      ensures match GridRun(p, clock, client.placeReply, |old(client.placed)|)
        case Err(e) => r == Err(e) && sleeps == [] && client.placed == old(client.placed)
        case Ok(t) => r == Ok(t.receipts) && sleeps == t.sleeps && client.placed == old(client.placed) + t.sent
      ensures client.created == old(client.created)
    {
      var check := GridCheck(p);
      if check.Some? {
        return Err(ValidationError(check.value)), [];
      }
      if p.numLevels == 1 {
        return Err(ZeroDivisionError), [];
      }
      var step := (p.maxPrice - p.minPrice) / (p.numLevels - 1) as real;
      var quantity := p.totalQuantity / p.numLevels as real;
      var receipts;
      receipts, sleeps := RunLevels(p, step, quantity, clock);
      r := Ok(receipts);
    }

    /** `create_buy_grid`: a grid on the BUY side with limit orders. */
    method CreateBuyGrid(symbol: string, totalQuantity: real, minPrice: real, maxPrice: real, numLevels: int,
                         timeInForce: string, info: Option<SymbolInfo>, clock: nat -> nat)
      returns (r: Result<seq<Receipt>, Error>, sleeps: seq<real>)
      modifies client
      ensures var p := GridParams(symbol, "BUY", totalQuantity, minPrice, maxPrice, numLevels, "LIMIT", timeInForce, info);
        match GridRun(p, clock, client.placeReply, |old(client.placed)|)
        case Err(e) => r == Err(e) && sleeps == [] && client.placed == old(client.placed)
        case Ok(t) => r == Ok(t.receipts) && sleeps == t.sleeps && client.placed == old(client.placed) + t.sent
      ensures client.created == old(client.created)
    {
      r, sleeps := CreateGrid(GridParams(symbol, "BUY", totalQuantity, minPrice, maxPrice, numLevels, "LIMIT", timeInForce, info), clock);
    }

    /** `create_sell_grid`: a grid on the SELL side with limit orders. */
    method CreateSellGrid(symbol: string, totalQuantity: real, minPrice: real, maxPrice: real, numLevels: int,
                          timeInForce: string, info: Option<SymbolInfo>, clock: nat -> nat)
      returns (r: Result<seq<Receipt>, Error>, sleeps: seq<real>)
      modifies client
      ensures var p := GridParams(symbol, "SELL", totalQuantity, minPrice, maxPrice, numLevels, "LIMIT", timeInForce, info);
        match GridRun(p, clock, client.placeReply, |old(client.placed)|)
        case Err(e) => r == Err(e) && sleeps == [] && client.placed == old(client.placed)
        case Ok(t) => r == Ok(t.receipts) && sleeps == t.sleeps && client.placed == old(client.placed) + t.sent
      ensures client.created == old(client.created)
    {
      r, sleeps := CreateGrid(GridParams(symbol, "SELL", totalQuantity, minPrice, maxPrice, numLevels, "LIMIT", timeInForce, info), clock);
    }

    /** `simulate_grid`: the levels without placing anything and without the
        parameter checks; the step fails for one level and the share for none. */
    method SimulateGrid(symbol: string, side: string, totalQuantity: real, minPrice: real, maxPrice: real,
                        numLevels: int, clock: nat -> nat)
      returns (r: Result<GridSimulation, Error>)
      ensures r.Err? <==> numLevels == 0 || numLevels == 1
      ensures r.Err? ==> r.error == ZeroDivisionError
      ensures r.Ok? ==>
        var s := r.value;
        && s.symbol == symbol && s.side == side && s.totalQuantity == totalQuantity
        && s.minPrice == minPrice && s.maxPrice == maxPrice && s.numLevels == numLevels
        && s.priceStep == PriceStep(minPrice, maxPrice, numLevels)
        && s.quantityPerLevel == QuantityPerLevel(totalQuantity, numLevels)
        && |s.levels| == (if numLevels < 0 then 0 else numLevels)
        && forall i :: 0 <= i < |s.levels| ==>
             s.levels[i] == SimulatedAt(symbol, side, minPrice, maxPrice, s.priceStep, s.quantityPerLevel, clock(i), i)
    {
      if numLevels == 1 {
        return Err(ZeroDivisionError);
      }
      var step := (maxPrice - minPrice) / (numLevels - 1) as real;
      if numLevels == 0 {
        return Err(ZeroDivisionError);
      }
      var quantity := totalQuantity / numLevels as real;
      var levels: seq<SimulatedLevel> := [];
      var i: nat := 0;
      while i < numLevels
        invariant i <= if numLevels < 0 then 0 else numLevels
        invariant |levels| == i
        invariant forall k :: 0 <= k < i ==>
          levels[k] == SimulatedAt(symbol, side, minPrice, maxPrice, step, quantity, clock(k), k)
      {
        levels := levels + [SimulatedLevel(i + 1, LevelPrice(side, minPrice, maxPrice, step, i), quantity,
                                           ChildOrderId("GRID", symbol, clock(i), i))];
        i := i + 1;
      }
      r := Ok(GridSimulation(symbol, side, totalQuantity, minPrice, maxPrice, numLevels, step, quantity, levels));
    }
  }
}
