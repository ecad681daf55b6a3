/** The loop TWAP and grid orders share: a fixed number of slots, each one
    handing one child order to a strategy's order handler. A refused or failed
    child is skipped without stopping the loop; a filled one may be followed by
    a pause. TWAP also stops at the first slot it reaches too late. */
module Slots {
  import opened Wrappers
  import opened Domain

  /** What the slots from some point on amount to: the receipts collected,
      the pauses taken (in seconds) and the requests placed, each in order. */
  datatype Trace = Trace(receipts: seq<Receipt>, sleeps: seq<real>, sent: seq<Request>)

  /** The loop from slot `i` on, `calls` placements having been made before.
      `open(k)` says whether slot `k` is still reached, `child(k)` is the
      handler's verdict on slot `k`'s order and `pause(k)` the pause after it
      when it is filled. */
  function SlotsFrom(count: nat, open: nat -> bool, child: nat -> Result<Request, Error>, pause: nat -> seq<real>,
                     reply: nat -> Result<Receipt, Error>, i: nat, calls: nat): Trace
    decreases count - i
  {
    if i >= count || !open(i) then Trace([], [], [])
    else match child(i)
      case Err(_) => SlotsFrom(count, open, child, pause, reply, i + 1, calls)
      case Ok(request) =>
        var rest := SlotsFrom(count, open, child, pause, reply, i + 1, calls + 1);
        match reply(calls)
        case Err(_) => Trace(rest.receipts, rest.sleeps, [request] + rest.sent)
        case Ok(receipt) => Trace([receipt] + rest.receipts, pause(i) + rest.sleeps, [request] + rest.sent)
  }

  /** One turn of the loop at a slot that is reached. */
  lemma SlotsStep(count: nat, open: nat -> bool, child: nat -> Result<Request, Error>, pause: nat -> seq<real>,
                  reply: nat -> Result<Receipt, Error>, i: nat, calls: nat)
    requires i < count && open(i)
    ensures child(i).Err? ==>
      SlotsFrom(count, open, child, pause, reply, i, calls) == SlotsFrom(count, open, child, pause, reply, i + 1, calls)
    ensures child(i).Ok? ==>
      var rest := SlotsFrom(count, open, child, pause, reply, i + 1, calls + 1);
      SlotsFrom(count, open, child, pause, reply, i, calls) ==
        if reply(calls).Ok? then Trace([reply(calls).value] + rest.receipts, pause(i) + rest.sleeps, [child(i).value] + rest.sent)
        else Trace(rest.receipts, rest.sleeps, [child(i).value] + rest.sent)
  {
  }

  lemma Regroup<T>(done: seq<T>, x: seq<T>, rest: seq<T>)
    ensures done + (x + rest) == (done + x) + rest
  {
  }

  /** The loop's bookkeeping over one slot that is reached: what that slot
      places, receives and pauses moves from the rest of the run to what is done. */
  lemma SlotsAdvance(count: nat, open: nat -> bool, child: nat -> Result<Request, Error>, pause: nat -> seq<real>,
                     reply: nat -> Result<Receipt, Error>, i: nat, calls: nat, whole: Trace,
                     receipts: seq<Receipt>, sleeps: seq<real>, sent: seq<Request>,
                     receipts': seq<Receipt>, sleeps': seq<real>, sent': seq<Request>, calls': nat)
    requires i < count && open(i)
    requires var rest := SlotsFrom(count, open, child, pause, reply, i, calls);
      whole == Trace(receipts + rest.receipts, sleeps + rest.sleeps, sent + rest.sent)
    requires calls' == if child(i).Ok? then calls + 1 else calls
    requires sent' == if child(i).Ok? then sent + [child(i).value] else sent
    requires receipts' == if child(i).Ok? && reply(calls).Ok? then receipts + [reply(calls).value] else receipts
    requires sleeps' == if child(i).Ok? && reply(calls).Ok? then sleeps + pause(i) else sleeps
    ensures var rest := SlotsFrom(count, open, child, pause, reply, i + 1, calls');
      whole == Trace(receipts' + rest.receipts, sleeps' + rest.sleeps, sent' + rest.sent)
  {
    SlotsStep(count, open, child, pause, reply, i, calls);
    if child(i).Ok? {
      var rest := SlotsFrom(count, open, child, pause, reply, i + 1, calls + 1);
      Regroup(sent, [child(i).value], rest.sent);
      if reply(calls).Ok? {
        Regroup(receipts, [reply(calls).value], rest.receipts);
        Regroup(sleeps, pause(i), rest.sleeps);
      }
    }
  }

  /** A loop that has stopped leaves nothing more to do. */
  lemma SlotsDone(count: nat, open: nat -> bool, child: nat -> Result<Request, Error>, pause: nat -> seq<real>,
                  reply: nat -> Result<Receipt, Error>, i: nat, calls: nat, whole: Trace,
                  receipts: seq<Receipt>, sleeps: seq<real>, sent: seq<Request>)
    requires i >= count || !open(i)
    requires var rest := SlotsFrom(count, open, child, pause, reply, i, calls);
      whole == Trace(receipts + rest.receipts, sleeps + rest.sleeps, sent + rest.sent)
    ensures whole == Trace(receipts, sleeps, sent)
  {
    assert receipts + [] == receipts && sleeps + [] == sleeps && sent + [] == sent;
  }

  /** The outcomes of `count` consecutive placements starting with call number `from`. */
  function Replies(reply: nat -> Result<Receipt, Error>, from: nat, count: nat): (rs: seq<Result<Receipt, Error>>)
    ensures |rs| == count
  {
    seq(count, k requires 0 <= k < count => reply(from + k))
  }

  lemma RepliesCons(reply: nat -> Result<Receipt, Error>, from: nat, count: nat)
    ensures Replies(reply, from, count + 1) == [reply(from)] + Replies(reply, from + 1, count)
  {
    var whole, split := Replies(reply, from, count + 1), [reply(from)] + Replies(reply, from + 1, count);
    assert |whole| == |split|;
    assert forall k :: 0 <= k < |whole| ==> whole[k] == split[k];
  }

  lemma OksOfRepliesCons(reply: nat -> Result<Receipt, Error>, from: nat, count: nat)
    ensures Oks(Replies(reply, from, count + 1)) ==
      (if reply(from).Ok? then [reply(from).value] else []) + Oks(Replies(reply, from + 1, count))
  {
    RepliesCons(reply, from, count);
    OksCons(reply(from), Replies(reply, from + 1, count));
  }

  /** The receipts are exactly the successful replies to the placed requests, in order. */
  lemma {:induction false} ReceiptsAreSuccesses(count: nat, open: nat -> bool, child: nat -> Result<Request, Error>,
                                                pause: nat -> seq<real>, reply: nat -> Result<Receipt, Error>,
                                                i: nat, calls: nat)
    ensures var t := SlotsFrom(count, open, child, pause, reply, i, calls);
      t.receipts == Oks(Replies(reply, calls, |t.sent|))
    decreases count - i, 1
  {
    if i >= count || !open(i) {
      assert Replies(reply, calls, 0) == [];
    } else if child(i).Err? {
      SlotsStep(count, open, child, pause, reply, i, calls);
      ReceiptsAreSuccesses(count, open, child, pause, reply, i + 1, calls);
    } else {
      PlacedReceiptsAreSuccesses(count, open, child, pause, reply, i, calls);
    }
  }

  /** The step of ReceiptsAreSuccesses at a slot that places its child. */
  lemma {:induction false} PlacedReceiptsAreSuccesses(count: nat, open: nat -> bool, child: nat -> Result<Request, Error>,
                                                      pause: nat -> seq<real>, reply: nat -> Result<Receipt, Error>,
                                                      i: nat, calls: nat)
    requires i < count && open(i) && child(i).Ok?
    ensures var t := SlotsFrom(count, open, child, pause, reply, i, calls);
      t.receipts == Oks(Replies(reply, calls, |t.sent|))
    decreases count - i, 0
  {
    SlotsStep(count, open, child, pause, reply, i, calls);
    var t := SlotsFrom(count, open, child, pause, reply, i, calls);
    var rest := SlotsFrom(count, open, child, pause, reply, i + 1, calls + 1);
    ReceiptsAreSuccesses(count, open, child, pause, reply, i + 1, calls + 1);
    assert |t.sent| == |rest.sent| + 1;
    assert t.receipts == (if reply(calls).Ok? then [reply(calls).value] else []) + rest.receipts;
    OksOfRepliesCons(reply, calls, |rest.sent|);
  }

  /** At most one request per remaining slot, at most one receipt per request. */
  lemma {:induction false} SentBound(count: nat, open: nat -> bool, child: nat -> Result<Request, Error>,
                                     pause: nat -> seq<real>, reply: nat -> Result<Receipt, Error>, i: nat, calls: nat)
    ensures var t := SlotsFrom(count, open, child, pause, reply, i, calls);
      && |t.receipts| <= |t.sent|
      && (i <= count ==> |t.sent| <= count - i)
    decreases count - i
  {
    if i < count && open(i) {
      SlotsStep(count, open, child, pause, reply, i, calls);
      SentBound(count, open, child, pause, reply, i + 1, calls);
      SentBound(count, open, child, pause, reply, i + 1, calls + 1);
    }
  }

  /** Every pause is one a filled slot asks for: with at most one pause of
      `d` seconds per slot, at most one pause per receipt, all of `d`. */
  lemma {:induction false} SleepBound(count: nat, open: nat -> bool, child: nat -> Result<Request, Error>,
                                      pause: nat -> seq<real>, reply: nat -> Result<Receipt, Error>,
                                      i: nat, calls: nat, d: real)
    requires forall k: nat :: pause(k) == [] || pause(k) == [d]
    ensures var t := SlotsFrom(count, open, child, pause, reply, i, calls);
      && |t.sleeps| <= |t.receipts|
      && (forall k :: 0 <= k < |t.sleeps| ==> t.sleeps[k] == d)
    decreases count - i
  {
    if i < count && open(i) {
      SlotsStep(count, open, child, pause, reply, i, calls);
      if child(i).Err? {
        SleepBound(count, open, child, pause, reply, i + 1, calls, d);
      } else {
        assert pause(i) == [] || pause(i) == [d];
        SleepBound(count, open, child, pause, reply, i + 1, calls + 1, d);
      }
    }
  }

  /** When every filled slot asks for the same pause, each receipt is followed by exactly one. */
  lemma {:induction false} OnePausePerReceipt(count: nat, open: nat -> bool, child: nat -> Result<Request, Error>,
                                              pause: nat -> seq<real>, reply: nat -> Result<Receipt, Error>,
                                              i: nat, calls: nat, d: real)
    requires forall k: nat :: pause(k) == [d]
    ensures var t := SlotsFrom(count, open, child, pause, reply, i, calls);
      |t.sleeps| == |t.receipts|
    decreases count - i
  {
    if i < count && open(i) {
      SlotsStep(count, open, child, pause, reply, i, calls);
      if child(i).Err? {
        OnePausePerReceipt(count, open, child, pause, reply, i + 1, calls, d);
      } else {
        assert pause(i) == [d];
        OnePausePerReceipt(count, open, child, pause, reply, i + 1, calls + 1, d);
      }
    }
  }

  /** Every placed request is one a slot's handler accepted; so whatever holds
      of every accepted child of the first `count` slots holds of every placed request. */
  lemma {:induction false} SentSatisfy(count: nat, open: nat -> bool, child: nat -> Result<Request, Error>,
                                       pause: nat -> seq<real>, reply: nat -> Result<Receipt, Error>,
                                       i: nat, calls: nat, good: Request -> bool)
    requires forall k: nat :: k < count && child(k).Ok? ==> good(child(k).value)
    ensures var t := SlotsFrom(count, open, child, pause, reply, i, calls);
      forall k :: 0 <= k < |t.sent| ==> good(t.sent[k])
    decreases count - i
  {
    if i < count && open(i) {
      SlotsStep(count, open, child, pause, reply, i, calls);
      if child(i).Err? {
        SentSatisfy(count, open, child, pause, reply, i + 1, calls, good);
      } else {
        SentSatisfy(count, open, child, pause, reply, i + 1, calls + 1, good);
      }
    }
  }

  /** Nothing is placed from the first slot that is no longer reached. */
  lemma {:induction false} SlotsStopAtClosed(count: nat, open: nat -> bool, child: nat -> Result<Request, Error>,
                                             pause: nat -> seq<real>, reply: nat -> Result<Receipt, Error>,
                                             i: nat, calls: nat, j: nat)
    requires i <= j && !open(j)
    ensures |SlotsFrom(count, open, child, pause, reply, i, calls).sent| <= j - i
    decreases j - i
  {
    if i < count && open(i) {
      SlotsStep(count, open, child, pause, reply, i, calls);
      SlotsStopAtClosed(count, open, child, pause, reply, i + 1, calls, j);
      SlotsStopAtClosed(count, open, child, pause, reply, i + 1, calls + 1, j);
    }
  }

  /** Children that are all refused are all skipped: nothing is placed and no error escapes. */
  lemma {:induction false} AllRefused(count: nat, open: nat -> bool, child: nat -> Result<Request, Error>,
                                      pause: nat -> seq<real>, reply: nat -> Result<Receipt, Error>, i: nat, calls: nat)
    requires forall k: nat :: child(k).Err?
    ensures SlotsFrom(count, open, child, pause, reply, i, calls) == Trace([], [], [])
    decreases count - i
  {
    if i < count && open(i) {
      SlotsStep(count, open, child, pause, reply, i, calls);
      AllRefused(count, open, child, pause, reply, i + 1, calls);
    }
  }

  /** The pauses of slots `i` to `count - 1`, one after the other. */
  function Pauses(count: nat, pause: nat -> seq<real>, i: nat): seq<real>
    decreases count - i
  {
    if i >= count then [] else pause(i) + Pauses(count, pause, i + 1)
  }

  /** When every remaining slot is reached, every child accepted and every
      placement succeeds, every slot yields one receipt and its own pause. */
  lemma {:induction false} AllFilled(count: nat, open: nat -> bool, child: nat -> Result<Request, Error>,
                                     pause: nat -> seq<real>, reply: nat -> Result<Receipt, Error>, i: nat, calls: nat)
    requires i <= count
    requires forall k :: i <= k < count ==> open(k) && child(k).Ok?
    requires forall k :: calls <= k < calls + count - i ==> reply(k).Ok?
    ensures var t := SlotsFrom(count, open, child, pause, reply, i, calls);
      && |t.sent| == |t.receipts| == count - i
      && t.sleeps == Pauses(count, pause, i)
    decreases count - i
  {
    if i < count {
      SlotsStep(count, open, child, pause, reply, i, calls);
      AllFilled(count, open, child, pause, reply, i + 1, calls + 1);
    }
  }

  /** `count` shares of `total` split `n` ways never exceed it when `count <= n`. */
  lemma ShareBound(total: real, n: real, count: real)
    requires total > 0.0 && 0.0 <= count <= n && n > 0.0
    ensures count * (total / n) <= total
  {
    var q := total / n;
    assert n * q == total;
    assert n * q - count * q == (n - count) * q;
  }
}
