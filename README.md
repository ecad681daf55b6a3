# Binance futures order bot: verified model of the order core

This project models the core of a trading bot for USDⓈ-M futures.
The bot checks and normalises order requests against the exchange's symbol filters, and retries exchange calls with exponential backoff.
It places market, limit and stop-limit orders by "validate, then place one order", and runs three synthetic strategies: TWAP slices, grid ladders and a two-leg OCO.
It also redacts secrets from the dictionaries it logs.

Quantities and prices are Dafny `real`, so decimal arithmetic is exact.
The exchange is a `Placement.Client` object.
It records every request handed to it, and its replies come from oracles indexed by call number.
The wall clock is a pair of oracles indexed by slot: the seconds elapsed, and the Unix time stamp written into child order ids.
Sleeps are returned as lists of durations instead of being taken.
Errors are a `Result` whose `Error` datatype names the exception: `ValidationError` with a reason tagged by field or rule, an exchange API error, a transport error, `ZeroDivisionError`, and so on.

Modules, one per source file plus shared ones:

- `Wrappers`: Option/Result.
- `Text`: the `upper()`, `strip()` and `str(int)` behaviour the code relies on.
- `Domain`: the data.
- `Validators`: `src/validators.py`.
- `Retry`: `src/utils/retry.py`.
- `Placement`: the client and the buy/sell dispatch the strategies share.
- `MarketOrders`, `LimitOrders`, `StopLimitOrders`, `Oco`, `Twap`, `Grid`: the strategies.
- `Slots`: the skip-on-failure slot loop that TWAP and grid share.
- `Logger`: `src/utils/logger.py`.

## Model

| member | source | states |
|---|---|---|
| Text.Upper | src/validators.py:34 | `upper()` keeps the length and upper-cases each ASCII letter in place |
| Text.Strip | src/validators.py:34 | `strip()` returns a slice `s[lo..hi]` of the input with only white space before `lo` and from `hi` on, and the slice neither starts nor ends with white space |
| Text.NatToString | src/orders/advanced/twap.py:111 | the decimal rendering of a slot index or time stamp is non-empty, and one digit long exactly below 10 |
| Text.NatToStringInjective | src/orders/advanced/twap.py:111 | different numbers render to different strings |
| Text.LastPieceUnique | src/orders/advanced/twap.py:111 | two strings ending in `_` and a piece without `_` end in the same piece |
| Text.ChildOrderIdsDistinct | src/orders/advanced/twap.py:111 | two children with different indexes never get the same client id, whatever their tags, symbols and time stamps, so the per-slot clock readings of one run cannot collide; the same holds for grid ids (grid.py:106) |
| Validators.ValidateSymbol | src/validators.py:30-42 | empty input is refused with EmptySymbol; otherwise it succeeds iff the upper-cased, trimmed symbol has 6-12 characters from A-Z/0-9, and then returns that symbol; every failure is a ValidationError |
| Validators.ValidateSymbolIdempotent | src/validators.py:34-42 | a validated symbol validates to itself |
| Validators.CanonicalSymbolAccepted | src/config.py:38 | a symbol already matching `^[A-Z0-9]{6,12}$` is accepted unchanged |
| Validators.ValidateSymbolCaseInsensitive | src/validators.py:34 | symbol validation gives the same verdict whatever the letter case |
| Validators.ValidateSide | src/validators.py:58-66 | empty input is refused; otherwise it succeeds iff the upper-cased, trimmed side is BUY or SELL, and then returns it |
| Validators.ValidateSideFixesCanonical | src/validators.py:61-66 | BUY and SELL are returned as they are |
| Validators.KindOf | src/validators.py:87-89 | exactly the six type names are recognised, and each denotes the kind whose name it is |
| Validators.ValidateOrderType | src/validators.py:82-95 | empty input is refused; any other input is accepted iff its upper-cased, trimmed form is one of the six type names, and then the kind is the one so named; every failure is a ValidationError |
| Validators.OrderTypeRoundTrip | src/validators.py:87-95 | each of the six kind names validates back to its kind |
| Validators.ValidateTimeInForce | src/validators.py:260-273 | absent or empty means GTC; otherwise it succeeds iff the upper-cased, trimmed value is GTC, IOC or FOK, and every result is one of the three |
| Validators.ValidateTimeInForceIdempotent | src/validators.py:263-273 | a validated time in force validates to itself |
| Validators.FirstIndex | src/validators.py:132-135 | the position found is that of the first filter of the type, with no filter of that type before it |
| Validators.FirstFilter | src/validators.py:132-135 | no filter is found exactly when none has the type; a found one has the type |
| Validators.FindFilter | src/validators.py:131-135 | the loop-and-break search returns the first filter of the type |
| Validators.RemainderZeroIffMultiple | src/validators.py:159-163 | for positive operands the Decimal remainder is zero exactly when the value is an integer multiple of the step |
| Validators.SuggestionIsFloorMultiple | src/validators.py:164-165 | the suggestion `(x // step) * step` is a multiple of the step, at most x, and more than x less one step |
| Validators.CheckFilter | src/validators.py:137-170 | a passing value is at least the minimum (0 when missing), at most the maximum (when present) and a multiple of a positive step; an off-step refusal carries the step and the largest multiple below the value |
| Validators.CheckFilterAccepts | src/validators.py:137-170 | conversely, for a positive value: it passes a filter exactly when it is at least the minimum, at most the maximum and a multiple of a positive step |
| Validators.QuantityVerdict | src/validators.py:120-172 | q <= 0 and q < 0.000001 are refused with their own reasons; an accepted quantity is returned unchanged; every failure is a ValidationError |
| Validators.QuantityAccepted | src/validators.py:120-172 | a quantity is accepted (returned unchanged) exactly when it is positive, at least 0.000001 and obeys the first LOT_SIZE filter, if any |
| Validators.QuantityWithinLotSize | src/validators.py:131-170 | an accepted quantity lies within the first LOT_SIZE filter's bounds and is a multiple of its positive step |
| Validators.QuantityOffStepSuggestion | src/validators.py:153-170 | an off-step refusal means the step is positive, the quantity is not a multiple of it, and the suggestion is floor(q/step)*step, a multiple within one step below q |
| Validators.ValidateQuantity | src/validators.py:98-172 | the imperative check (filter search by loop and break) returns exactly QuantityVerdict |
| Validators.PriceVerdict | src/validators.py:189-244 | an absent price passes as absent; p <= 0 is refused; an accepted price is returned unchanged; every failure is a ValidationError |
| Validators.PriceAccepted | src/validators.py:189-244 | a given price is accepted (returned unchanged) exactly when it is positive and obeys the first PRICE_FILTER, if any |
| Validators.PriceWithinPriceFilter | src/validators.py:203-244 | an accepted price lies within the first PRICE_FILTER's bounds and is a multiple of its positive tick |
| Validators.PriceOffTickSuggestion | src/validators.py:225-242 | an off-tick refusal means the tick is positive, the price is not a multiple of it, and the suggestion is floor(p/tick)*tick |
| Validators.ValidatePrice | src/validators.py:175-244 | the imperative check returns exactly PriceVerdict |
| Validators.CrossFieldViolation | src/validators.py:294-316 | no rule is broken iff LIMIT has a price, STOP_LIMIT and OCO have both prices, and MARKET has no price |
| Validators.NativeType | src/validators.py:437-457 | MARKET, LIMIT and STOP_LIMIT map to MARKET, LIMIT and STOP; OCO, TWAP and GRID are refused with a ValidationError |
| Validators.NativeTimeInForce | src/validators.py:379-381 | of the native types produced, only MARKET goes without a time in force |
| Validators.FieldsVerdict | src/validators.py:352-358 | the field checks pass iff each one passes, and then yield each check's normalised value |
| Validators.RequestVerdict | src/validators.py:350-422 | every refusal of the whole request is a ValidationError |
| Validators.ValidateFields | src/validators.py:352-358 | running the field checks one after another returns exactly FieldsVerdict |
| Validators.ValidateOrderRequest | src/validators.py:319-403 | checking the fields and inserting the optional keys in place returns exactly RequestVerdict |
| Validators.BuildRequest | src/validators.py:372-391 | the request dictionary built from the validated fields; its keys and values are stated by BuildRequestShape |
| Validators.BuildRequestShape | src/validators.py:372-391 | the built request has the four fixed keys; timeInForce iff the native type is not a market type; price, stopPrice and newClientOrderId iff supplied (the id only when non-empty); no other key |
| Validators.AcceptedAs | src/validators.py:360-391 | an accepted request of a kind has a native type, obeys that kind's price rules and is the dictionary built from the normalised fields |
| Validators.AcceptedWhen | src/validators.py:350-403 | conversely, when every field check, the cross-field rules and the native mapping pass, the request is accepted |
| Validators.AcceptedRequestParts | src/validators.py:350-403 | an accepted request passed every field check, the cross-field rules and the native mapping |
| Validators.AcceptedRequestShape | src/validators.py:350-403 | every accepted request is MARKET, LIMIT or STOP_LIMIT, with the normalised symbol and side, the native type, the quantity, timeInForce iff not MARKET, and each optional key iff supplied |
| Validators.CompositeKindsNeverValidate | src/validators.py:446-455 | a request of kind OCO, TWAP or GRID is always refused |
| Validators.CrossFieldRulesEnforced | src/validators.py:294-316 | LIMIT without a price, STOP_LIMIT without either price, and MARKET with a price are always refused |
| Validators.ExampleQuantityOffStep | src/validators.py:153-170 | 0.0105 against a 0.001 lot step is refused with 0.01 suggested |
| Validators.LimitBuyExample | src/validators.py:350-403 | a LIMIT BUY of 0.01 BTCUSDT at 50000.5 becomes a native LIMIT request with GTC and unchanged amounts |
| Retry.Delay | src/utils/retry.py:49 | the pause after attempt k never exceeds max_delay, is either max_delay or base_delay*2^k, and is non-negative for non-negative parameters |
| Retry.DelayMonotone | src/utils/retry.py:49 | with a non-negative base, later attempts never wait less |
| Retry.RunFrom | src/utils/retry.py:32-61 | the attempt loop from one attempt on, as a function of the call outcomes; characterised by RunFromStep and RunFromShape |
| Retry.RetryRun | src/utils/retry.py:29-64 | the whole wrapper, including `raise None` when max_retries is negative; characterised by RetryShape and proved equal to RetryWithBackoff |
| Retry.RunFromStep | src/utils/retry.py:32-61 | one turn of the loop: a success, a non-retryable error or the last attempt ends the run with that outcome; otherwise a pause comes before the rest |
| Retry.RetryWithBackoff | src/utils/retry.py:29-64 | the attempt loop returns the outcome, the number of calls and the pauses of RetryRun |
| Retry.RunFromShape | src/utils/retry.py:32-61 | from any attempt: consecutive calls, all but the last failing retryably, one pause Delay(k) after each, and the last call's outcome returned |
| Retry.RetryShape | src/utils/retry.py:32-61 | 1 to max_retries+1 calls; the first success or non-retryable error ends the run; the last call's outcome is returned; a run of k+1 calls has exactly k pauses, the i-th being Delay(i) |
| Retry.SleepsBoundedAndNondecreasing | src/utils/retry.py:38-61 | the pauses lie between 0 and max_delay and never shrink |
| Retry.DefaultsExhausted | src/utils/retry.py:13-61 | under the defaults, a call that always fails retryably is made 4 times, with pauses 1, 2 and 4 s, and its fourth error is raised |
| Retry.NonRetryableNotRetried | src/utils/retry.py:33-35 | a non-retryable error ends the run at the first call without a pause |
| Retry.NegativeDelayRaises | src/utils/retry.py:49-61 | a negative base delay makes the first pause raise ValueError |
| Placement.Client.constructor | src/binance_client.py:17 | a new client has handed over nothing |
| Placement.Client.PlaceOrder | src/binance_client.py:48-78 | one request is appended to the placed ones and the oracle's reply to that call is returned |
| Placement.Client.CreateOrder | src/orders/advanced/oco.py:96 | one raw request is appended to the created ones and the oracle's reply to that call is returned |
| Placement.DispatchSide | src/orders/market_orders.py:219-234 | the dispatch picks a side iff the upper-cased side is BUY or SELL, and then picks that one |
| Placement.DispatchedSideValidates | src/orders/market_orders.py:219-227 | whatever the dispatch picks, the side check accepts unchanged |
| Placement.DispatchCaseInsensitive | src/orders/market_orders.py:219-226 | dispatch does not depend on letter case |
| MarketOrders.MarketVerdict | src/orders/market_orders.py:56-66 | the validation of a market order on a fixed side: kind MARKET, no prices, default time in force; its request is stated by MarketRequestShape and MarketAcceptedIff |
| MarketOrders.MarketOrderVerdict | src/orders/market_orders.py:219-234 | place_order's verdict: a side outside BUY/SELL (any case) is refused, else MarketVerdict on that side; PlaceOrder is proved to follow it |
| MarketOrders.MarketKind | src/orders/market_orders.py:56-63 | MARKET validates to the market kind, whose native type carries no time in force and which passes the cross-field rules without prices |
| MarketOrders.MarketRequestShape | src/orders/market_orders.py:56-66 | what a market order sends: type MARKET on the given side, the quantity, no price, stop price or time in force, and the client id, with its value, iff non-empty |
| MarketOrders.MarketAcceptedIff | src/orders/market_orders.py:56-66 | a market order on BUY or SELL is accepted iff its symbol and quantity checks pass |
| MarketOrders.MarketOrder.constructor | src/orders/market_orders.py:15-22 | the handle keeps the client |
| MarketOrders.MarketOrder.PlaceBuyOrder | src/orders/market_orders.py:24-107 | a refused BUY request reaches nobody and its error is raised; an accepted one is placed exactly once and the client's reply is returned unchanged |
| MarketOrders.MarketOrder.PlaceSellOrder | src/orders/market_orders.py:109-192 | the same for SELL |
| MarketOrders.MarketOrder.PlaceSide | src/orders/market_orders.py:56-78 | validate, then place only what validated, once |
| MarketOrders.MarketOrder.PlaceOrder | src/orders/market_orders.py:194-234 | BUY or SELL in any letter case goes to that side; anything else is refused with nothing placed |
| LimitOrders.LimitVerdict | src/orders/advanced/grid.py:109-119 | the validation of a limit order: kind LIMIT with its price and time in force; its request is stated by LimitRequestShape |
| LimitOrders.LimitOrderVerdict | src/orders/advanced/twap.py:123-134 | place_order's verdict: dispatch on the side, then LimitVerdict |
| LimitOrders.LimitKind | src/orders/advanced/grid.py:109-119 | LIMIT validates to the limit kind, whose native type LIMIT takes a time in force |
| LimitOrders.LimitRequestShape | src/orders/advanced/grid.py:109-119 | an accepted limit order had a price and sends type LIMIT with the side, quantity, price and validated time in force, no stop price, and the client id, with its value, iff non-empty |
| LimitOrders.LimitOrder.constructor | src/orders/advanced/grid.py:109-110 | the handle keeps the client |
| LimitOrders.LimitOrder.PlaceSide | src/orders/advanced/grid.py:109-119 | validate as LIMIT, then place only what validated, once |
| LimitOrders.LimitOrder.PlaceOrder | src/orders/advanced/twap.py:123-134 | BUY or SELL in any letter case is validated and placed on that side; anything else is refused with nothing placed |
| StopLimitOrders.StopLimitVerdict | src/orders/advanced/stop_limit.py:65-78 | the validation of a stop-limit order: kind STOP_LIMIT with both prices and the time in force; its request is stated by StopLimitRequestShape |
| StopLimitOrders.StopLimitOrderVerdict | src/orders/advanced/stop_limit.py:234-286 | place_order's verdict: dispatch on the side, then StopLimitVerdict |
| StopLimitOrders.StopLimitKind | src/validators.py:443-445 | STOP_LIMIT validates to the stop-limit kind, whose native type STOP takes a time in force |
| StopLimitOrders.StopLimitRequestShape | src/orders/advanced/stop_limit.py:65-78 | what a stop-limit order sends: type STOP on the given side with quantity, price, stop price and the validated time in force, and the client id, with its value, iff non-empty |
| StopLimitOrders.StopLimitOrder.constructor | src/orders/advanced/stop_limit.py:15-22 | the handle keeps the client |
| StopLimitOrders.StopLimitOrder.PlaceBuyOrder | src/orders/advanced/stop_limit.py:24-127 | a refused BUY request reaches nobody and its error is raised; an accepted one is placed exactly once and the client's reply is returned unchanged |
| StopLimitOrders.StopLimitOrder.PlaceSellOrder | src/orders/advanced/stop_limit.py:129-232 | the same for SELL |
| StopLimitOrders.StopLimitOrder.PlaceSide | src/orders/advanced/stop_limit.py:65-92 | validate, then place only what validated, once |
| StopLimitOrders.StopLimitOrder.PlaceOrder | src/orders/advanced/stop_limit.py:234-286 | BUY or SELL in any letter case goes to that side; anything else is refused with nothing placed |
| Oco.OppositeSide | src/orders/advanced/oco.py:101 | the stop side is BUY or SELL, and is SELL exactly for BUY |
| Oco.OppositeSideInvolutive | src/orders/advanced/oco.py:101 | on BUY and SELL the stop side differs from the limit side, and taking the opposite twice gives the side back |
| Oco.LimitLeg | src/orders/advanced/oco.py:83-93 | the take-profit leg's keyword arguments; stated by LimitLegShape |
| Oco.StopLeg | src/orders/advanced/oco.py:99-108 | the stop-loss leg's keyword arguments; stated by StopLegShape |
| Oco.LimitLegShape | src/orders/advanced/oco.py:83-93 | the take-profit leg is a GTC LIMIT on the upper-cased side at the given quantity and price, without a stop price, carrying `<id>_limit` exactly when an id is given |
| Oco.StopLegShape | src/orders/advanced/oco.py:99-108 | the stop-loss leg is a STOP_MARKET on the opposite side at the stop price, with no price and no time in force, carrying `<id>_stop` exactly when an id is given |
| Oco.LegIdsDistinct | src/orders/advanced/oco.py:92-108 | the two legs never share a client id |
| Oco.OcoReceipt | src/orders/advanced/oco.py:137-151 | the receipt says OCO, GTC, the upper-cased side and the input amounts; its id (default 0), status (default UNKNOWN), executed quantity (default 0), transaction time (default 0) and average price come from the limit leg's reply |
| Oco.OcoPlan | src/orders/advanced/oco.py:75-153 | place_oco_order as its outcome and the raw requests sent; its ordering is stated by OcoOrdering and OcoNotAtomic, and PlaceOcoOrder is proved to follow it |
| Oco.OcoOrdering | src/orders/advanced/oco.py:75-111 | a bad side sends nothing; otherwise the limit leg goes first, the stop leg is sent iff the limit leg was accepted, and success needs both |
| Oco.OcoNotAtomic | src/orders/advanced/oco.py:96-111 | when the stop leg is refused, the limit leg stays sent and the stop leg's error is raised |
| Oco.OcoSkipsValidation | src/orders/advanced/oco.py:75-153 | whatever the amounts, a good side and two accepted legs give the synthesised receipt |
| Oco.OcoOrder.constructor | src/orders/advanced/oco.py:15-22 | the handle keeps the client |
| Oco.OcoOrder.PlaceOcoOrder | src/orders/advanced/oco.py:24-191 | the outcome and the raw requests sent are those of OcoPlan, and the validated placement path is not used |
| Oco.OcoOrder.PlaceBuyOco | src/orders/advanced/oco.py:193-230 | place_oco_order on the BUY side |
| Oco.OcoOrder.PlaceSellOco | src/orders/advanced/oco.py:232-269 | place_oco_order on the SELL side |
| Oco.FixedSidesSendOppositeStops | src/orders/advanced/oco.py:101 | the buy wrapper's stop leg sells and the sell wrapper's stop leg buys |
| Slots.SlotsFrom | src/orders/advanced/twap.py:95-161 | the skip-on-failure slot loop as a trace of receipts, pauses and requests; characterised by the Slots lemmas below |
| Slots.SlotsStep | src/orders/advanced/twap.py:95-161 | at a reached slot a refused child is skipped; an accepted one is placed, and only a filled one adds a receipt and its pause |
| Slots.SlotsAdvance | src/orders/advanced/twap.py:95-161 | one reached slot moves its placement, receipt and pause from the rest of the run to what is done |
| Slots.SlotsDone | src/orders/advanced/twap.py:95-108 | a loop that has stopped leaves nothing more to do |
| Slots.ReceiptsAreSuccesses | src/orders/advanced/twap.py:136 | the returned receipts are exactly the successful replies to the placed requests, in order |
| Slots.SentBound | src/orders/advanced/grid.py:96-147 | at most one request per remaining slot and at most one receipt per request |
| Slots.SleepBound | src/orders/advanced/twap.py:148-161 | when every pause is d seconds or none, there is at most one pause per receipt and every pause is d |
| Slots.OnePausePerReceipt | src/orders/advanced/grid.py:121-135 | when every filled slot pauses the same, each receipt is followed by exactly one pause |
| Slots.SentSatisfy | src/orders/advanced/grid.py:109-121 | every placed request is one that a slot's handler accepted |
| Slots.SlotsStopAtClosed | src/orders/advanced/twap.py:98-108 | nothing is placed from the first slot that is no longer reached |
| Slots.AllRefused | src/orders/advanced/twap.py:152-161 | children that are all refused are all skipped: nothing is placed and no error escapes |
| Slots.AllFilled | src/orders/advanced/twap.py:95-150 | when every slot is reached, accepted and filled, each yields one receipt and its own pause |
| Twap.ParamsCheck | src/orders/advanced/twap.py:69-76 | the run proceeds iff the duration and total are positive and LIMIT has a price; the refusals are checked in the source's order |
| Twap.NumOrders | src/orders/advanced/twap.py:80 | between 5 and 20 child orders: 5 exactly below 12 minutes, 20 exactly from 40, half the minutes in between |
| Twap.NumOrdersMonotone | src/orders/advanced/twap.py:80 | more minutes never mean fewer child orders |
| Twap.IntervalSeconds | src/orders/advanced/twap.py:81 | the interval is at least one second for a positive duration |
| Twap.IntervalFits | src/orders/advanced/twap.py:81 | the slots spaced one interval apart fit in the duration, and one more second each would overrun it |
| Twap.FloorDivBounds | src/orders/advanced/twap.py:81 | Python's `//` with a positive divisor is the largest quotient whose multiple stays within the dividend |
| Twap.QuantityPerOrder | src/orders/advanced/twap.py:82 | a positive total gives a positive share |
| Twap.QuantitySharesTotal | src/orders/advanced/twap.py:82 | the shares add up to the total quantity |
| Twap.ChildOrder | src/orders/advanced/twap.py:111-134 | slot i's id `TWAP_<symbol>_<stamp>_<i>` and the market or limit handler's verdict on its child; stated by ChildOrderShape |
| Twap.ChildOrderShape | src/orders/advanced/twap.py:111-134 | an accepted child carries the share, the upper-cased side, type MARKET or LIMIT by order type, and its slot's TWAP client id |
| Twap.ChildrenShape | src/orders/advanced/twap.py:113-134 | every child any slot would place is such a TWAP child request |
| Twap.TwapAdvance | src/orders/advanced/twap.py:111-150 | one slot reached in time moves its placement, receipt and interval pause (none after the last slot) to what is done |
| Twap.TwapDone | src/orders/advanced/twap.py:95-108 | after the last slot or at the deadline, nothing remains |
| Twap.PausesAreIntervals | src/orders/advanced/twap.py:148-150 | every pause is one interval |
| Twap.TwapFrom | src/orders/advanced/twap.py:95-161 | the TWAP loop: SlotsFrom over num_orders slots, reached while time remains, pausing one interval after each filled slot but the last; stated by TwapFromBounds, TwapFromAllFilled and TwapDeadlineStops |
| Twap.TwapRun | src/orders/advanced/twap.py:69-161 | execute_twap: the parameter checks, then TwapFrom from the first slot; ExecuteTwap is proved to follow it |
| Twap.TwapFromBounds | src/orders/advanced/twap.py:95-161 | only TWAP child requests are placed, at most one per remaining slot; at most one receipt per request; only receipts are followed by pauses, each one interval |
| Twap.TwapPausesCount | src/orders/advanced/twap.py:148-150 | the slots from i on pause one time fewer than there are slots |
| Twap.TwapFromAllFilled | src/orders/advanced/twap.py:95-150 | when every slot is on time, accepted and filled, every slot yields a receipt and every receipt but the last a pause |
| Twap.TwapDeadlineStops | src/orders/advanced/twap.py:98-108 | nothing is placed from the first slot reached with no time left |
| Twap.TwapUnknownSide | src/orders/advanced/twap.py:113-161 | a side other than BUY/SELL passes the TWAP checks and then places nothing, raising nothing |
| Twap.TwapRunWithinTotal | src/orders/advanced/twap.py:69-161 | a run that passes the checks had a positive total and places at most num_orders children |
| Twap.SharesWithinTotal | src/orders/advanced/twap.py:82 | at most num_orders shares never exceed the total quantity |
| Twap.TwapOrder.constructor | src/orders/advanced/twap.py:17-24 | the handle keeps the client |
| Twap.TwapOrder.PlaceSlot | src/orders/advanced/twap.py:111-161 | one slot: its child goes through the market or limit handler, a filled one adds its receipt and, unless last, one interval's pause |
| Twap.TwapOrder.AdvanceSlot | src/orders/advanced/twap.py:111-161 | PlaceSlot keeps the loop's account: done plus rest is the whole run |
| Twap.TwapOrder.RunSlots | src/orders/advanced/twap.py:95-161 | the slot loop's receipts, pauses and placements are those of TwapFrom from the first slot |
| Twap.TwapOrder.ExecuteTwap | src/orders/advanced/twap.py:26-197 | refused parameters raise before any placement; otherwise the receipts, pauses and placements are those of TwapRun |
| Twap.TwapOrder.SimulateTwap | src/orders/advanced/twap.py:234-260 | the simulation lists num_orders slots; slot i has number i+1, offset i*interval, the share, the price only for LIMIT, and its client id; nothing is checked or placed |
| Twap.SimulationFitsDuration | src/orders/advanced/twap.py:251-252 | for a positive duration every simulated slot and its interval end within the duration |
| Twap.SimulationMatchesExecution | src/orders/advanced/twap.py:251-260 | a simulated LIMIT slot has the quantity, client id and price of the child the execution sends in that slot |
| Grid.GridCheck | src/orders/advanced/grid.py:71-81 | the run proceeds iff min < max, the levels and the total are positive, and the type is not MARKET; refusals are checked in the source's order |
| Grid.QuantitySharesTotal | src/orders/advanced/grid.py:85 | the level shares add up to the total |
| Grid.PriceStepSpans | src/orders/advanced/grid.py:84 | n-1 steps span exactly the price range |
| Grid.LevelPriceWithinRange | src/orders/advanced/grid.py:96-104 | with at least two levels over a non-empty range every level price lies in [min, max] |
| Grid.LevelPriceEnds | src/orders/advanced/grid.py:99-104 | a BUY grid starts at min and ends at max; any other side starts at max and ends at min |
| Grid.LevelPriceMonotone | src/orders/advanced/grid.py:99-104 | a BUY grid climbs strictly level by level; any other side descends strictly |
| Grid.ChildOrderShape | src/orders/advanced/grid.py:99-119 | an accepted child is a LIMIT for one share on the upper-cased side at its level's in-range price, with its level's GRID client id |
| Grid.ChildrenShape | src/orders/advanced/grid.py:96-119 | every child any level would place is such a grid child request |
| Grid.PriceStep | src/orders/advanced/grid.py:84 | (max - min) / (n - 1), defined only for n != 1; stated by PriceStepSpans |
| Grid.QuantityPerLevel | src/orders/advanced/grid.py:85 | total / n; stated by QuantitySharesTotal and SharesWithinTotal |
| Grid.LevelPrice | src/orders/advanced/grid.py:99-104 | level i's price, up from min for BUY in any case and down from max otherwise; stated by LevelPriceWithinRange, LevelPriceEnds and LevelPriceMonotone |
| Grid.ChildOrder | src/orders/advanced/grid.py:106-119 | level i's id `GRID_<symbol>_<stamp>_<i>` and the limit handler's verdict on its child; stated by ChildOrderShape |
| Grid.GridFrom | src/orders/advanced/grid.py:96-147 | the corrected level loop: SlotsFrom over every level with a 0.1 s pause after each filled one; stated by GridFromBounds and GridFromAllFilled |
| Grid.GridRun | src/orders/advanced/grid.py:56-187 | the corrected create_grid: the checks, ZeroDivisionError for one level, then GridFrom; stated by GridRunOutcome and GridRunWithoutClash |
| Grid.GridRunOutcome | src/orders/advanced/grid.py:71-85 | the loop is reached iff the checks pass and there are at least two levels; one level divides by zero computing the step |
| Grid.GridFromBounds | src/orders/advanced/grid.py:96-147 | only grid child requests are placed, at most one per level; at most one receipt per request; each receipt is followed by exactly one 0.1 s pause |
| Grid.GridPausesCount | src/orders/advanced/grid.py:135 | every level from i on pauses once |
| Grid.GridFromAllFilled | src/orders/advanced/grid.py:96-135 | when every level is accepted and filled, each yields one receipt and one pause |
| Grid.GridUnknownSide | src/orders/advanced/grid.py:96-147 | a side other than BUY/SELL passes the grid checks and then places nothing, raising nothing |
| Grid.GridRunWithinLevels | src/orders/advanced/grid.py:71-147 | a run that reaches the loop had a positive total and at least two levels, and places at most num_levels children |
| Grid.SharesWithinTotal | src/orders/advanced/grid.py:85 | at most num_levels shares never exceed the total quantity |
| Grid.GridLoop | src/orders/advanced/grid.py:96-147 | the source's level loop with its two log calls and its handler, the level keyword a parameter; GridAsWrittenRaises and GridLoopWithoutClash state it |
| Grid.GridRunWith | src/orders/advanced/grid.py:56-187 | create_grid with that keyword: the checks, the step, GridLoop, and the outer handlers that log and raise again |
| Grid.GridRunAsWritten | src/orders/advanced/grid.py:56-187 | create_grid as written, GridRunWith with the keyword `level`; GridAsWrittenRaises states what it does |
| Grid.GridAsWrittenRaises | src/orders/advanced/grid.py:123-145 | as written, every grid that passes its checks raises a TypeError at its first level: exactly the first child, if accepted, is placed, no pause is taken, and the list it drops holds exactly the first receipt when that child was filled (appended at line 121, before the failing call) |
| Grid.GridLoopWithoutClash | src/orders/advanced/grid.py:96-147 | with the level logged under a keyword that repeats no logger parameter, the loop raises nothing and is exactly the skip-on-failure loop GridFrom |
| Grid.GridRunWithoutClash | src/orders/advanced/grid.py:56-187 | that corrected `create_grid` is GridRun: refusals and a single level raise with nothing placed, anything else raises nothing |
| Grid.SimulationMatchesExecution | src/orders/advanced/grid.py:309-321 | a simulated level has the price, quantity and client id of the child the grid run sends at that level |
| Grid.GridOrder.constructor | src/orders/advanced/grid.py:16-23 | the handle keeps the client |
| Grid.GridOrder.PlaceLevel | src/orders/advanced/grid.py:99-147 | one level: its limit order goes through the limit handler, a filled one adds its receipt and a 0.1 s pause |
| Grid.GridOrder.AdvanceLevel | src/orders/advanced/grid.py:96-147 | PlaceLevel keeps the loop's account: done plus rest is the whole run |
| Grid.GridOrder.RunLevels | src/orders/advanced/grid.py:96-147 | the level loop's receipts, pauses and placements are those of GridFrom from the first level |
| Grid.GridOrder.CreateGrid | src/orders/advanced/grid.py:25-187 | refused parameters, or a single level, raise before any placement; otherwise the receipts, pauses and placements are those of GridRun |
| Grid.GridOrder.CreateBuyGrid | src/orders/advanced/grid.py:189-222 | create_grid on the BUY side with LIMIT orders |
| Grid.GridOrder.CreateSellGrid | src/orders/advanced/grid.py:224-257 | create_grid on the SELL side with LIMIT orders |
| Grid.GridOrder.SimulateGrid | src/orders/advanced/grid.py:259-339 | zero or one level raise ZeroDivisionError; otherwise the simulation lists num_levels levels numbered from 1 with the run's price formula and share, checking nothing |
| Logger.Redacted | src/utils/logger.py:48-55 | the keys stay the same; every listed field present is replaced by the redaction whatever its value; the other values are unchanged |
| Logger.MaskedKey | src/utils/logger.py:61 | the mask is 11 characters: the key's first four, three asterisks and its last four |
| Logger.Sanitized | src/utils/logger.py:43-63 | same keys; the four secret fields redacted; a string api_key longer than 8 masked; a short or non-string api_key and every other value unchanged |
| Logger.MaskedKeyStable | src/utils/logger.py:58-61 | masking a masked key changes nothing |
| Logger.SanitizedIdempotent | src/utils/logger.py:43-63 | sanitising sanitised data changes nothing |
| Logger.Field | src/utils/logger.py:75-79 | a dictionary under request or response is logged sanitised; anything else is logged as given |
| Logger.Entry | src/utils/logger.py:65-79 | the header, then each keyword field in order; stated by EntryKeys, EntryFields and EntryHeader |
| Logger.EntryKeys | src/utils/logger.py:65-79 | an entry has the four header keys and the keyword names, nothing else |
| Logger.EntryFields | src/utils/logger.py:75-79 | every keyword field is logged with its sanitised-if-needed value |
| Logger.EntryHeader | src/utils/logger.py:67-72 | a header field no keyword overrides holds the time stamp, the upper-cased level, the component or the event |
| Logger.Log | src/utils/logger.py:65-94 | a call of info/warning/error/debug: the argument binding, then the entry; stated by LogOutcome |
| Logger.BindError | src/utils/logger.py:84-94 | a call of info/warning/error/debug raises a TypeError exactly when a keyword names one of the positional parameters `self`, `level`, `component`, `event` |
| Logger.LogOutcome | src/utils/logger.py:65-94 | a log call raises exactly when a keyword names a parameter, and a logged entry always carries its own upper-cased level, component and event |
| Logger.StructuredLogger.SanitizeData | src/utils/logger.py:43-63 | the copy-and-overwrite loop returns exactly Sanitized |
| Logger.StructuredLogger.BuildEntry | src/utils/logger.py:65-79 | the insertion loop builds exactly Entry |

## Left out

- src/orders/limit_orders.py is not part of this model. `LimitOrders` models the limit order handler that TWAP and grid call as a mirror of the market order handler: order type LIMIT, with a price and a time in force.
- The exchange behind `place_order` and `futures_create_order` is an oracle from call number to reply. The retry wrapper around `place_order` is modelled on its own in `Retry`, not composed with the client.
- `time.sleep`, `datetime.now` and `time.time` are not called: pauses are returned as lists of seconds, and elapsed time and time stamps are oracles indexed by slot.
- `json.dumps`, the log handlers and the time stamp format are not modelled. The time stamp is a parameter of `Logger.Entry`. Log calls are modelled only where they change control flow: the argument binding of `Logger.Log`, which makes grid's level log calls raise.
- Binary floating point and `Decimal(str(float))` are not modelled: quantities and prices are exact reals, and Decimal's `%` and `//` truncate toward zero.
- `float(...)` coercion of quantities and prices, and the "cannot be empty" and "must be a valid number" refusals it guards, are not modelled, because the model's amounts are typed reals.
- Text.Upper: upper-cases ASCII letters only. Python's full Unicode `upper()` can change a string's length and is not modelled.
- The regular expression engine is not modelled: the symbol pattern is a length and character-class predicate.
- Error messages are not modelled: errors carry a reason tagged by field or rule.
- Oco.OcoOrder.PlaceOcoOrder: the stop-limit price, its time in force and the symbol information are accepted and ignored, as in the source. The `orderListId` summary dictionary is only logged, so it is not modelled.
- The executed totals and ratios that TWAP and grid compute after the loop are only logged, so they are not modelled. A `float()` failure on a reply's executed quantity there is not modelled either.
- Grid.GridOrder.SimulateGrid: the `price_range` pair is kept as its two ends, `minPrice` and `maxPrice`.
- Two children with the same index get the same id when their tags, symbols and time stamps agree, e.g. two runs on one symbol started within the same second. Text.ChildOrderIdsDistinct covers different indexes only.
- Logger.Entry: builds the entry of a call whose arguments bound. A keyword named `level`, `component` or `event` never reaches it, because `Logger.Log` raises first. Entry itself lets such a keyword overwrite the header field.
- Twap.TwapRunWithinTotal and Grid.GridRunWithinLevels bound the number of children placed. The bound on the quantity placed follows from Twap.SharesWithinTotal and Grid.SharesWithinTotal.
- The logger's constructor only installs handlers, so `Logger.StructuredLogger`'s constructor has no contract.
- The command-line interface, configuration loading and the exchange client's other calls are outside this model.
- Slots.OnePausePerReceipt: the grid loop it describes is the corrected one (see Findings). As written, grid.py raises before its first pause.
- Grid.GridFromBounds: states the corrected loop (see Findings). As written, create_grid raises a TypeError at level 0 and takes no pause (Grid.GridAsWrittenRaises).
- Grid.GridPausesCount: counts the pauses of the corrected loop. As written, no level reaches the sleep at grid.py:135.
- Grid.GridFromAllFilled: holds of the corrected loop. As written, a filled first level raises a TypeError, so there is one receipt and no pause.
- Grid.GridUnknownSide: holds of the corrected loop. As written, the handler's `level=` log call raises a TypeError at level 0.
- Grid.GridOrder.PlaceLevel: models one level of the corrected loop. As written, a filled level raises a TypeError after its receipt is kept, instead of pausing.
- Grid.GridOrder.AdvanceLevel: keeps the account of the corrected loop, which as written never gets past level 0.
- Grid.GridOrder.RunLevels: is proved equal to GridFrom, the corrected loop. The as-written loop is Grid.GridLoop with the keyword `level`, which raises at level 0.
- Grid.GridOrder.CreateGrid: returns the corrected create_grid's receipts (Grid.GridRunWithoutClash). As written, create_grid raises a TypeError after at most one placement (Grid.GridAsWrittenRaises).
- Grid.GridOrder.CreateBuyGrid: inherits CreateGrid's correction. As written, it raises a TypeError after at most one placement.
- Grid.GridOrder.CreateSellGrid: inherits CreateGrid's correction. As written, it raises a TypeError after at most one placement.

## Findings

| source | as written | input that shows it | evidently intended | confidence | as-written member | corrected member |
|---|---|---|---|---|---|---|
| src/orders/advanced/grid.py:123-145 | both log calls of a level pass `level=i + 1`; `info` and `error` forward it to `_log(self, level, ...)` (src/utils/logger.py:65, 84-94), which already has `level`, so each call raises a TypeError and the handler's own call lets it out of the loop | any grid that passes its checks with at least two levels, e.g. BTCUSDT, BUY, total 0.01, range (49000, 51000), 2 levels: the first child is placed, then TypeError | the level number is logged under a name that is not a logger parameter; every level is placed, a failed one is skipped, a filled one pauses 0.1 s, and the receipts are returned | high; not executed | Grid.GridRunAsWritten, Grid.GridAsWrittenRaises | Grid.GridRun, Grid.GridRunWithoutClash |
