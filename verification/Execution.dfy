/** What a simulated execution promises, told from the book, the order and the settings. */
module Execution {
  import opened Trading
  import opened Numerals
  import opened BookWalk
  import opened Simulator
  import O = OrderLifecycle

  /** Asks for a buyer, bids for a seller. */
  function Opposite(book: OrderBook, side: Side): seq<Level> {
    if side == Buy then book.asks else book.bids
  }

  predicate Priced(levels: seq<Level>) {
    forall i :: 0 <= i < |levels| ==> levels[i].price >= 0.0 && levels[i].qty >= 0.0
  }

  // ----- takers

  lemma {:induction false} CostIsNonnegative(levels: seq<Level>, a: seq<real>)
    requires |a| == |levels| && Priced(levels) && forall i :: 0 <= i < |a| ==> a[i] >= 0.0
    ensures Cost(levels, a) >= 0.0
    decreases |levels|
  {
    if a != [] {
      CostIsNonnegative(levels[..|a| - 1], a[..|a| - 1]);
    }
  }

  /** The average is what some way of taking the quantity pays, and no way pays less, or earns more. */
  ghost predicate IsBest(levels: seq<Level>, limit: real, side: Side, average: real, qty: real) {
    && (exists a :: IsAllocation(levels, limit, side, a) && Total(a) == qty && Cost(levels, a) == average * qty)
    && (forall a :: IsAllocation(levels, limit, side, a) && Total(a) == qty ==> NoWorse(side, average * qty, Cost(levels, a)))
  }

  lemma Recovered(cost: real, qty: real)
    requires qty > 0.0
    ensures (cost / qty) * qty == cost
  {
  }

  /**
   * What the walk reports is the best there is: the smaller of the request and the depth within the limit, at an
   * average that no way of taking that quantity within the limit improves on.
   */
  lemma WalkedIsBest(levels: seq<Level>, requested: real, limit: real, side: Side)
    requires BestFirst(levels, side) && NonNegative(levels)
    ensures Walked(levels, requested, limit, side).Some? <==> requested > 0.0 && Depth(levels, limit, side) > 0.0
    ensures match Walked(levels, requested, limit, side)
      case None => true
      case Some(r) =>
        && r.1 == MinReal(requested, Depth(levels, limit, side)) && NoWorse(side, r.0, limit)
        && IsBest(levels, limit, side, r.0, r.1)
  {
    hide Takes, Depth, Total, Cost, Notional;
    var g := Takes(levels, requested, limit, side);
    WalkIsAnAllocation(levels, requested, limit, side);
    FillsAvailableDepth(levels, requested, limit, side);
    AverageWithinLimit(levels, requested, limit, side);
    DepthNonNegative(levels, limit, side);
    if Walked(levels, requested, limit, side).Some? {
      var walked := Walked(levels, requested, limit, side).value;
      var average, qty := walked.0, walked.1;
      Recovered(Cost(levels, g), qty);
      assert IsAllocation(levels, limit, side, g) && Total(g) == qty && Cost(levels, g) == average * qty;
      forall a | IsAllocation(levels, limit, side, a) && Total(a) == qty ensures NoWorse(side, average * qty, Cost(levels, a)) {
        WalkIsOptimal(levels, requested, limit, side, a);
      }
    }
  }

  /** How far slippage and impact move an average price. */
  function Slip(c: Config, average: real): real {
    average * (c.slippageBps + c.impactBps) as real / 10000.0
  }

  /**
   * A taker never gets a better price than the average its walk paid: the price is that average moved against it by
   * slippage and impact, or its limit where that would pass the limit.
   */
  lemma SlippageIsAgainstTaker(c: Config, side: Side, average: real, limit: real)
    requires average >= 0.0 && NoWorse(side, average, limit)
    ensures var price := AdversePrice(c, side, average, limit);
      match side
      case Buy => average <= price <= limit && (price == average + Slip(c, average) || (price == limit <= average + Slip(c, average)))
      case Sell => limit <= price <= average && (price == average - Slip(c, average) || (price == limit >= average - Slip(c, average)))
  {
    var bps := (c.slippageBps + c.impactBps) as real;
    assert average * (1.0 + bps / 10000.0) == average + Slip(c, average);
    assert average * (1.0 - bps / 10000.0) == average - Slip(c, average);
    assert average * bps >= 0.0;
  }

  /** A fill of this order, at the later of two times, charged by the schedule. */
  predicate Executes(c: Config, f: Fill, o: LiveOrder, liquidity: Liquidity, now: Millis) {
    && f.orderId == o.orderId && f.market == o.order.market && f.outcome == o.order.outcome && f.side == o.order.side
    && f.liquidity == liquidity && c.fee(f.size, f.price, liquidity) == Some(f.fee)
    && now <= f.timestampMs && o.submittedMs <= f.timestampMs && (f.timestampMs == now || f.timestampMs == o.submittedMs)
  }

  /** What a taker's fill is, given the average and quantity of the walk. */
  ghost predicate PaysSlipped(c: Config, f: Fill, limit: real, average: real) {
    match f.side
    case Buy => average <= f.price <= limit && (f.price == average + Slip(c, average) || (f.price == limit <= average + Slip(c, average)))
    case Sell => limit <= f.price <= average && (f.price == average - Slip(c, average) || (f.price == limit >= average - Slip(c, average)))
  }

  /** The schedule has a fee for the walk's quantity at its slipped price. */
  ghost predicate Chargeable(c: Config, order: PlaceOrder, walked: Option<(real, real)>) {
    walked.Some? && c.fee(walked.value.1, AdversePrice(c, order.side, walked.value.0, order.price), Taker).Some?
  }

  ghost predicate PaysForWalk(c: Config, f: Fill, order: PlaceOrder, walked: Option<(real, real)>) {
    walked.Some? && f.size == walked.value.1 && PaysSlipped(c, f, order.price, walked.value.0)
  }

  /**
   * A taker is filled if and only if the walk finds something and the fee can be computed; the fill is the whole
   * quantity of the walk, at the walk's average moved against the taker.
   */
  lemma TakerFillIs(c: Config, book: OrderBook, o: LiveOrder, now: Millis)
    requires var levels := Opposite(book, o.order.side); Priced(levels) && BestFirst(levels, o.order.side)
    ensures var order := o.order;
      var levels := Opposite(book, order.side);
      var size := MinReal(order.qty, Depth(levels, order.price, order.side));
      && (TakerFill(c, book, o, now).Some? <==> size > 0.0 && Chargeable(c, order, Walked(levels, order.qty, order.price, order.side)))
      && match TakerFill(c, book, o, now)
         case None => true
         case Some(f) =>
           && Executes(c, f, o, Taker, now) && f.size == size
           && PaysForWalk(c, f, order, Walked(levels, order.qty, order.price, order.side))
  {
    hide Walked, Depth, BestFirst, Slip;
    var order := o.order;
    var levels := Opposite(book, order.side);
    assert levels == Against(book, order.side);
    WalkedIsBest(levels, order.qty, order.price, order.side);
    var walked := Walked(levels, order.qty, order.price, order.side);
    if walked.Some? {
      var average, qty := walked.value.0, walked.value.1;
      AverageIsNonnegative(levels, order.qty, order.price, order.side);
      SlippageIsAgainstTaker(c, order.side, average, order.price);
      var price := AdversePrice(c, order.side, average, order.price);
      assert c.fee(qty, price, Taker).None? ==> TakerFill(c, book, o, now).None?;
      if c.fee(qty, price, Taker).Some? {
        var f := TakerFill(c, book, o, now).value;
        assert f.price == price && f.size == qty;
      }
    }
  }

  lemma AverageIsNonnegative(levels: seq<Level>, requested: real, limit: real, side: Side)
    requires Priced(levels)
    ensures match Walked(levels, requested, limit, side) case None => true case Some(r) => r.0 >= 0.0
  {
    hide Cost, Total;
    var a := Takes(levels, requested, limit, side);
    WalkIsAnAllocation(levels, requested, limit, side);
    CostIsNonnegative(levels, a);
  }

  // ----- makers

  /** What the touch leaves for a maker once the queue ahead of it is served. */
  function LeftAtTouch(c: Config, levels: seq<Level>): real {
    if levels == [] then 0.0
    else MaxReal(levels[0].qty - levels[0].qty * c.queueAheadBps as real / 10000.0, 0.0)
  }

  /**
   * A maker is filled at its own price, for the smaller of what rests and what the touch leaves for it; it is not
   * filled if and only if that is nothing or the fee cannot be computed.
   */
  lemma MakerFillIs(c: Config, book: OrderBook, o: LiveOrder)
    requires o.order.qty > 0.0
    ensures var size := MinReal(o.order.qty, LeftAtTouch(c, Opposite(book, o.order.side)));
      && (MakerFill(c, book, o).Some? <==> size > 0.0 && c.fee(size, o.order.price, Maker).Some?)
      && match MakerFill(c, book, o)
         case None => true
         case Some(f) => Executes(c, f, o, Maker, book.timestampMs) && f.price == o.order.price && f.size == size
  {
    var levels := Opposite(book, o.order.side);
    assert levels == Against(book, o.order.side);
    if levels != [] {
      var top, bps := levels[0].qty, c.queueAheadBps as real;
      assert top * (1.0 - bps / 10000.0) == top - top * bps / 10000.0;
    }
  }

  // ----- submissions

  /** The best opposite level, if there is one, is strictly beyond the order's price. */
  predicate CannotCross(book: OrderBook, order: PlaceOrder) {
    match order.side
    case Buy => book.asks != [] ==> book.asks[0].price > order.price
    case Sell => book.bids != [] ==> book.bids[0].price < order.price
  }

  /**
   * A post-only order is accepted if and only if its token's book is known and it cannot cross it; it then rests, as
   * submitted, and never fills at once.
   */
  lemma PostOnlyRestsIff(c: Config, e: Engine, order: PlaceOrder, strategy: Option<string>, now: Millis)
    requires order.postOnly && !Expired(order, now) && !c.violatesLimits(order)
    ensures var (f, id) := Submitted(c, e, order, strategy, now);
      var token := (order.market, order.outcome);
      && (id.Some? <==> token in e.books && CannotCross(e.books[token], order))
      && f.pending == e.pending && f.delayed == e.delayed
      && (id.None? ==> f.resting == e.resting)
      && (id.Some? ==>
        && id.value in f.resting && f.resting - {id.value} == e.resting - {id.value}
        && f.resting[id.value] == LiveOrder(id.value, order, now, SaturatingAdd(now, c.latencyMs), strategy))
  {
  }

  /**
   * Any other order waits in line if there is latency, until now plus the latency, and otherwise is accepted if and
   * only if its token's book is known and fills it, at once.
   */
  lemma TakerAcceptedIff(c: Config, e: Engine, order: PlaceOrder, strategy: Option<string>, now: Millis)
    requires !order.postOnly && !Expired(order, now) && !c.violatesLimits(order)
    ensures var (f, id) := Submitted(c, e, order, strategy, now);
      var token := (order.market, order.outcome);
      var o := LiveOrder(Numbered(c.idPrefix, e.nextId), order, now, SaturatingAdd(now, c.latencyMs), strategy);
      && f.resting == e.resting
      && (c.latencyMs > 0 ==> id == Some(o.orderId) && f.delayed == e.delayed + [o] && f.pending == e.pending)
      && (c.latencyMs <= 0 ==>
        && f.delayed == e.delayed
        && (id.Some? <==> token in e.books && TakerFill(c, e.books[token], o, now).Some?)
        && (id.Some? ==> f.pending == e.pending + [TakerFill(c, e.books[token], o, now).value])
        && (id.None? ==> f.pending == e.pending))
  {
    hide TakerFill;
  }

  /** Limits and expiry come first: such an order changes nothing, and mints no id. */
  lemma RefusedUpFront(c: Config, e: Engine, order: PlaceOrder, strategy: Option<string>, now: Millis)
    ensures c.violatesLimits(order) || (order.tif.Gtd? && order.tif.expireAtMs <= now) ==>
      Submitted(c, e, order, strategy, now) == (e, None)
    ensures !(c.violatesLimits(order) || (order.tif.Gtd? && order.tif.expireAtMs <= now)) ==>
      Submitted(c, e, order, strategy, now).0.nextId == e.nextId + 1
  {
    hide TakerFill, Touches;
  }

  /** A call of the run submitted this order post-only, and the book stored then could not be crossed by it. */
  ghost predicate RestedSafely(c: Config, states: seq<O.History>, calls: seq<O.Call>, j: nat, id: string)
    requires |states| == |calls| + 1
  {
    && j < |calls| && calls[j].Submit? && calls[j].order.postOnly && id == Numbered(c.idPrefix, states[j].engine.nextId)
    && var order, books := calls[j].order, states[j].engine.books;
    && (order.market, order.outcome) in books && CannotCross(books[(order.market, order.outcome)], order)
  }

  lemma StepRestsOnly(c: Config, h: O.History, call: O.Call, id: string)
    ensures id in O.Step(c, h, call).engine.resting ==>
      id in h.engine.resting ||
      (call.Submit? && call.order.postOnly && id == Numbered(c.idPrefix, h.engine.nextId) &&
       var token := (call.order.market, call.order.outcome);
       token in h.engine.books && CannotCross(h.engine.books[token], call.order))
  {
    hide AfterSweep, SweepFills, ActivationFills, TakerFill;
    if call.Submit? && call.order.postOnly && !Expired(call.order, call.now) && !c.violatesLimits(call.order) {
      PostOnlyRestsIff(c, h.engine, call.order, call.strategy, call.now);
    }
  }

  /** In every state of every run, a resting order is one that did not cross the book stored when it was submitted. */
  lemma {:induction false} RestingNeverCrossed(c: Config, states: seq<O.History>, calls: seq<O.Call>, n: nat, id: string)
    requires O.IsRun(c, states, calls) && n <= |calls| && id in states[n].engine.resting
    ensures exists j: nat :: j < n && RestedSafely(c, states, calls, j, id)
    decreases n
  {
    hide O.Step, O.Allowed;
    if n > 0 {
      StepRestsOnly(c, states[n - 1], calls[n - 1], id);
      if id in states[n - 1].engine.resting {
        RestingNeverCrossed(c, states, calls, n - 1, id);
      } else {
        assert RestedSafely(c, states, calls, n - 1, id);
      }
    }
  }

  // ----- cancellations

  /** A cancellation finds exactly the open orders, and leaves what else is open alone. */
  lemma CancelFindsOpen(e: Engine, id: string)
    requires O.DistinctIds(e.delayed) && forall o :: o in e.delayed ==> o.orderId !in e.resting
    ensures var (f, found) := Cancelled(e, id);
      && (found <==> id in e.resting || exists o :: o in e.delayed && o.orderId == id)
      && (forall x :: x in f.resting <==> x in e.resting && x != id)
      && (forall x :: x in f.resting ==> f.resting[x] == e.resting[x])
      && (forall o :: o in f.delayed <==> o in e.delayed && o.orderId != id)
      && f.pending == e.pending && f.nextId == e.nextId && f.books == e.books
  {
    var i := PositionOf(e.delayed, id);
    if id !in e.resting && i < |e.delayed| {
      assert e.delayed[i] in e.delayed;
      DelayedWithout(e.delayed, i);
    }
    hide O.DistinctIds;
  }

  /** Taking one order out of a list of distinct ids leaves exactly the others. */
  lemma DelayedWithout(delayed: seq<LiveOrder>, i: nat)
    requires i < |delayed| && O.DistinctIds(delayed)
    ensures var rest := delayed[..i] + delayed[i + 1..];
      O.DistinctIds(rest) && forall o :: o in rest <==> o in delayed && o.orderId != delayed[i].orderId
  {
    var rest := delayed[..i] + delayed[i + 1..];
    assert forall j :: 0 <= j < |rest| ==> rest[j] == delayed[if j < i then j else j + 1];
    assert delayed == delayed[..i] + [delayed[i]] + delayed[i + 1..];
  }

  // ----- book updates

  /** A waiting order of the token whose delay is over and which has not expired. */
  predicate Comes(o: LiveOrder, token: Token, now: Millis) {
    o.order.market == token.0 && o.order.outcome == token.1 && o.activeAtMs <= now &&
    !(o.order.tif.Gtd? && o.order.tif.expireAtMs <= now)
  }

  lemma {:induction false} AllActivated(c: Config, token: Token, book: OrderBook, delayed: seq<LiveOrder>, f: Fill)
    ensures f in ActivationFills(c, token, book, delayed) <==>
      exists o :: o in delayed && Matured(o, token, book.timestampMs) && TakerFill(c, book, o, book.timestampMs) == Some(f)
    decreases |delayed|
  {
    hide TakerFill, Matured;
    if delayed != [] {
      var n := |delayed| - 1;
      AllActivated(c, token, book, delayed[..n], f);
      assert delayed == delayed[..n] + [delayed[n]];
    }
  }

  lemma {:induction false} AllSwept(c: Config, book: OrderBook, resting: map<string, LiveOrder>, visit: seq<string>, f: Fill)
    ensures f in SweepFills(c, book, resting, visit) <==>
      exists id :: id in visit && id in resting && MakerFill(c, book, resting[id]) == Some(f)
    decreases |visit|
  {
    hide MakerFill;
    if visit != [] {
      var n := |visit| - 1;
      AllSwept(c, book, resting, visit[..n], f);
      assert visit == visit[..n] + [visit[n]];
    }
  }

  ghost predicate TakenBy(c: Config, token: Token, book: OrderBook, delayed: seq<LiveOrder>, f: Fill) {
    exists o :: o in delayed && Comes(o, token, book.timestampMs) && TakerFill(c, book, o, book.timestampMs) == Some(f)
  }

  ghost predicate MadeBy(c: Config, token: Token, book: OrderBook, resting: map<string, LiveOrder>, f: Fill) {
    exists id :: id in resting && Comes(resting[id], token, book.timestampMs) &&
      !CannotCross(book, resting[id].order) && MakerFill(c, book, resting[id]) == Some(f)
  }

  /**
   * The fills of an update are those of the waiting orders whose delay is over, against the new book, and those of the
   * resting orders that the new book crosses; expired orders are among neither. Every one of them fills.
   */
  lemma UpdateFillsIff(c: Config, e: Engine, token: Token, book: OrderBook, visit: seq<string>, f: Fill)
    requires IsVisitOf(visit, e, token, book)
    ensures f in BookUpdated(c, e, token, book, visit).pending <==>
      f in e.pending || TakenBy(c, token, book, e.delayed, f) || MadeBy(c, token, book, e.resting, f)
    ensures BookUpdated(c, e, token, book, visit).books == e.books[token := book]
  {
    hide TakerFill, MakerFill, ActivationFills, SweepFills, Swept, StillDelayed;
    var now := book.timestampMs;
    var delayed, resting := UnexpiredDelayed(e.delayed, token, now), UnexpiredResting(e.resting, token, now);
    AllActivated(c, token, book, delayed, f);
    AllSwept(c, book, resting, visit, f);
    assert forall o :: o in delayed && Matured(o, token, now) <==> o in e.delayed && Comes(o, token, now);
    assert forall id :: id in visit <==>
      id in e.resting && Comes(e.resting[id], token, now) && !CannotCross(book, e.resting[id].order);
  }

  predicate Over(o: LiveOrder, now: Millis) {
    o.order.tif.Gtd? && o.order.tif.expireAtMs <= now
  }

  predicate Elsewhere(o: LiveOrder, token: Token) {
    o.order.market != token.0 || o.order.outcome != token.1
  }

  /**
   * What an update leaves of a resting order: one of another token is untouched, an expired one is gone, a filled one
   * keeps what the fill left of it and is gone when that is nothing, and any other stays as it was.
   */
  lemma RestingAfterUpdate(c: Config, e: Engine, token: Token, book: OrderBook, visit: seq<string>, id: string)
    ensures var resting := BookUpdated(c, e, token, book, visit).resting;
      && (id in resting ==> id in e.resting)
      && (id in e.resting ==>
        var o := e.resting[id];
        var fill := if Comes(o, token, book.timestampMs) && !CannotCross(book, o.order) then MakerFill(c, book, o) else None;
        if Elsewhere(o, token) || (!Over(o, book.timestampMs) && fill == None) then id in resting && resting[id] == o
        else if Over(o, book.timestampMs) || fill.value.size == o.order.qty then id !in resting
        else id in resting && resting[id] == o.(order := o.order.(qty := o.order.qty - fill.value.size)))
  {
    hide MakerFill, ActivationFills, SweepFills, StillDelayed, UnexpiredDelayed;
    if id in e.resting {
      assert Touches(book, e.resting[id].order) <==> !CannotCross(book, e.resting[id].order);
    }
  }

  /** Exactly the waiting orders of other tokens, and those neither expired nor due, go on waiting. */
  lemma DelayedAfterUpdate(c: Config, e: Engine, token: Token, book: OrderBook, visit: seq<string>, o: LiveOrder)
    ensures o in BookUpdated(c, e, token, book, visit).delayed <==>
      o in e.delayed && (Elsewhere(o, token) || (!Over(o, book.timestampMs) && o.activeAtMs > book.timestampMs))
  {
    hide ActivationFills, SweepFills, Swept, UnexpiredResting;
  }
}
