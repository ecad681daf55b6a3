/** The exchange client as the order strategies see it, and what the
    strategies share: the case-insensitive buy/sell dispatch and the
    "validate, then place exactly one order" discipline. */
module Placement {
  import opened Wrappers
  import opened Text
  import opened Domain
  import Validators

  /** The exchange connection. Each call's outcome is fixed in advance by an
      oracle indexed by how many calls of that kind came before; the requests
      handed over are recorded in order. */
  class Client {
    /** Outcome of the n-th `place_order` call (validated request, retried, parsed into a receipt). */
    const placeReply: nat -> Result<Receipt, Error>
    /** Outcome of the n-th raw `futures_create_order` call (no validation, no retry). */
    const createReply: nat -> Result<RawReply, Error>
    /** The requests given to `place_order`, oldest first. */
    var placed: seq<Request>
    /** The requests given to the raw `futures_create_order`, oldest first. */
    var created: seq<Request>

    constructor(placeReply: nat -> Result<Receipt, Error>, createReply: nat -> Result<RawReply, Error>)
      ensures this.placeReply == placeReply && this.createReply == createReply
      ensures placed == [] && created == []
    {
      this.placeReply := placeReply;
      this.createReply := createReply;
      placed := [];
      created := [];
    }

    /** `BinanceClient.place_order`: hands over one request and returns its receipt or error. */
    method PlaceOrder(request: Request) returns (r: Result<Receipt, Error>)
      modifies this
      ensures placed == old(placed) + [request] && created == old(created)
      ensures r == placeReply(|old(placed)|)
    {
      r := placeReply(|placed|);
      placed := placed + [request];
    }

    /** `futures_create_order` on the underlying library client: one raw request, one raw reply. */
    method CreateOrder(request: Request) returns (r: Result<RawReply, Error>)
      modifies this
      ensures created == old(created) + [request] && placed == old(placed)
      ensures r == createReply(|old(created)|)
    {
      r := createReply(|created|);
      created := created + [request];
    }
  }

  /** The `side.upper() == "BUY"` / `"SELL"` dispatch of the strategies' `place_order`
      (no trimming, unlike `validate_side`). */
  function DispatchSide(side: string): (d: Option<string>)
    ensures d.Some? <==> Upper(side) in {"BUY", "SELL"}
    ensures d.Some? ==> d.value == Upper(side)
  {
    var s := Upper(side);
    if s == "BUY" then Some("BUY")
    else if s == "SELL" then Some("SELL")
    else None
  }

  /** Whatever the dispatch picks, the side check accepts unchanged. */
  lemma DispatchedSideValidates(side: string)
    requires DispatchSide(side).Some?
    ensures Validators.ValidateSide(DispatchSide(side).value) == Ok(DispatchSide(side).value)
  {
    Validators.ValidateSideFixesCanonical(DispatchSide(side).value);
  }

  /** Dispatch does not depend on letter case. */
  lemma DispatchCaseInsensitive(side: string)
    ensures DispatchSide(Upper(side)) == DispatchSide(side)
  {
    assert Upper(Upper(side)) == Upper(side);
  }

  /** One "validate, then place" step: a refused request reaches nobody and its
      error is returned; an accepted one is placed once and the client's
      outcome is returned unchanged. */
  ghost predicate PlacedOnce(verdict: Result<Request, Error>, reply: nat -> Result<Receipt, Error>,
                             before: seq<Request>, after: seq<Request>, r: Result<Receipt, Error>)
  {
    match verdict
    case Err(e) => after == before && r == Err(e)
    case Ok(request) => after == before + [request] && r == reply(|before|)
  }
}
