/** A funded paper account never commits the same dollar twice. */
module Solvency {
  import opened Trading
  import opened Numerals
  import opened Simulator
  import opened Executor
  import A = Accounting
  import L = Ledger
  import O = OrderLifecycle

  // ----- the ledger's side

  /** Cash and fees together cover every open buy; nothing recorded is negative. */
  ghost predicate Solvent(l: L.State) {
    (l.cashFunded ==> l.account.cash + l.account.fees >= L.Committed(l.orders)) &&
    l.account.fees >= 0.0 && A.Sound(l.account.positions) &&
    forall id :: id in l.orders ==> l.orders[id].order.place.price >= 0.0 && l.orders[id].order.place.qty >= 0.0
  }

  /** Orders only leave or shrink; those that stay keep their side and price. */
  ghost predicate Narrower(before: map<string, L.Tracked>, after: map<string, L.Tracked>) {
    forall id :: id in after ==>
      id in before &&
      after[id].order.place.side == before[id].order.place.side &&
      after[id].order.place.price == before[id].order.place.price
  }

  /** A fill of an open order is at its limit or better. */
  ghost predicate Fair(orders: map<string, L.Tracked>, f: Fill) {
    f.size > 0.0 &&
    (f.orderId in orders ==>
      NoWorse(orders[f.orderId].order.place.side, f.price, orders[f.orderId].order.place.price))
  }

  ghost predicate FairFills(orders: map<string, L.Tracked>, fills: seq<Fill>) {
    forall f :: f in fills ==> Fair(orders, f)
  }

  lemma WorthGrows(price: real, limit: real, size: real, qty: real)
    requires price <= limit && 0.0 <= size <= qty && 0.0 <= limit
    ensures Notional(price, size) <= Notional(limit, size) <= Notional(limit, qty)
    ensures Notional(limit, qty - size) == Notional(limit, qty) - Notional(limit, size)
  {
    assert (limit - price) * size >= 0.0;
    assert limit * (qty - size) >= 0.0;
  }

  lemma WorthNonNegative(price: real, qty: real)
    requires price >= 0.0 && qty >= 0.0
    ensures Notional(price, qty) >= 0.0
  {
  }

  /** What a fill releases from the reservation covers what a buy pays. */
  lemma ReleaseCovers(orders: map<string, L.Tracked>, id: string, price: real, size: real)
    requires id in orders && 0.0 <= size <= orders[id].order.place.qty && orders[id].order.place.price >= 0.0
    requires NoWorse(orders[id].order.place.side, price, orders[id].order.place.price)
    ensures var released := L.Committed(orders) - L.Committed(L.AfterFill(orders, id, size));
      released >= 0.0 && (orders[id].order.place.side == Buy ==> released >= Notional(price, size))
  {
    hide Notional, L.Committed;
    var t := orders[id];
    var place := t.order.place;
    L.CommittedSplit(orders, id);
    match L.Remainder(t, size) {
      case Some(left) => L.CommittedUpdate(orders, id, left);
      case None =>
    }
    if place.side == Buy {
      WorthGrows(price, place.price, size, place.qty);
      WorthNonNegative(place.price, size);
      WorthNonNegative(place.price, place.qty);
    }
  }

  /** One recorded fill, accepted or refused, keeps the ledger solvent. */
  lemma FillKeepsSolvent(l: L.State, id: string, fill: A.LedgerFill)
    requires Solvent(l) && fill.quantity > 0.0
    requires id in l.orders ==> NoWorse(l.orders[id].order.place.side, fill.price, l.orders[id].order.place.price)
    ensures var m := L.ApplyFill(l, id, fill).0; Solvent(m) && Narrower(l.orders, m.orders)
  {
    hide Notional, L.Committed, A.Sound, A.Bought, A.Reduced, A.Held;
    if id in l.orders && L.FillMatches(l.orders[id], fill) {
      A.StepConserves(l.account, A.Trade(fill));
      if A.Filled(l.account, fill).1.Accepted? {
        ReleaseCovers(l.orders, id, fill.price, fill.quantity);
        WorthNonNegative(fill.price, fill.quantity);
      } else if fill.side == Buy && fill.price >= 0.0 && fill.fee >= 0.0 {
        A.BoughtKeeps(l.account.positions, fill.market, fill.outcome, fill.quantity, fill.price);
      }
    }
  }

  lemma RecordKeepsSolvent(l: L.State, f: Fill)
    requires Solvent(l) && Fair(l.orders, f)
    ensures var m := RecordOne(l, f).0; Solvent(m) && Narrower(l.orders, m.orders) && Kept(l, m)
  {
    hide L.ApplyFill, L.Committed, A.Sound;
    FillKeepsSolvent(l, f.orderId, LedgerFillOf(f));
    L.ApplyFrame(l, L.NextEntry(l, f.timestampMs, L.FillRecorded(f.orderId, LedgerFillOf(f))));
    FillKeepsCounter(l, f.orderId, LedgerFillOf(f));
  }

  lemma FillKeepsCounter(l: L.State, id: string, fill: A.LedgerFill)
    ensures L.ApplyFill(l, id, fill).0.nextOrderId == l.nextOrderId
  {
    hide A.Filled;
  }

  ghost predicate Kept(l: L.State, m: L.State) {
    m.idPrefix == l.idPrefix && m.nextOrderId == l.nextOrderId && m.cashFunded == l.cashFunded
  }

  lemma {:induction false} RecordAllKeepsSolvent(l: L.State, fills: seq<Fill>)
    requires Solvent(l) && FairFills(l.orders, fills)
    ensures var m := RecordAll(l, fills).0; Solvent(m) && Narrower(l.orders, m.orders) && Kept(l, m)
    decreases |fills|
  {
    hide RecordOne, Solvent;
    if fills != [] {
      var n := |fills| - 1;
      assert fills[n] in fills;
      RecordAllKeepsSolvent(l, fills[..n]);
      var (m, v) := RecordAll(l, fills[..n]);
      if v.Ok? {
        RecordKeepsSolvent(m, fills[n]);
      }
    }
  }

  lemma CancelKeepsSolvent(l: L.State, id: string, now: Millis)
    requires Solvent(l)
    ensures var m := CancelOne(l, id, now).0; Solvent(m) && Narrower(l.orders, m.orders) && Kept(l, m)
  {
    hide Notional, L.Committed, A.Sound;
    if id in l.orders {
      L.CommittedSplit(l.orders, id);
      WorthNonNegative(l.orders[id].order.place.price, l.orders[id].order.place.qty);
    }
  }

  lemma {:induction false} CancelEachKeepsSolvent(l: L.State, ids: seq<string>, now: Millis)
    requires Solvent(l)
    ensures var m := CancelEach(l, ids, now).0; Solvent(m) && Narrower(l.orders, m.orders) && Kept(l, m)
    decreases |ids|
  {
    hide CancelOne, Solvent;
    if ids != [] {
      CancelEachKeepsSolvent(l, ids[..|ids| - 1], now);
      var (m, v) := CancelEach(l, ids[..|ids| - 1], now);
      if v.Ok? {
        CancelKeepsSolvent(m, ids[|ids| - 1], now);
      }
    }
  }

  lemma SettleKeepsSolvent(l: L.State, now: Millis, market: string, outcome: Outcome, size: real, proceeds: real)
    requires Solvent(l)
    ensures var m := L.Append(l, now, L.Settlement(market, outcome, size, proceeds)).0;
      Solvent(m) && m.orders == l.orders && Kept(l, m)
  {
    hide Notional, L.Committed, A.Sound, A.Reduced, A.Held;
    if size > 0.0 && proceeds >= 0.0 && A.Held(l.account.positions, market, outcome).quantity == size {
      A.StepConserves(l.account, A.Settle(market, outcome, proceeds / size));
      WorthNonNegative(proceeds / size, size);
    }
  }

  // ----- the engine's side

  /** An engine order that the ledger tracks has the same side and price there. */
  ghost predicate Priced(o: LiveOrder, orders: map<string, L.Tracked>) {
    o.order.qty >= 0.0 &&
    (o.orderId in orders ==>
      orders[o.orderId].order.place.side == o.order.side && orders[o.orderId].order.place.price == o.order.price)
  }

  ghost predicate EnginePriced(e: Engine, orders: map<string, L.Tracked>) {
    (forall id :: id in e.resting ==> e.resting[id].orderId == id && Priced(e.resting[id], orders)) &&
    (forall o :: o in e.delayed ==> Priced(o, orders)) &&
    FairFills(orders, e.pending)
  }

  /** Ids at and above the engine's counter are unused on both sides. */
  ghost predicate Fresh(c: Config, e: Engine, l: L.State) {
    l.idPrefix == c.idPrefix && e.nextId <= l.nextOrderId &&
    forall k: nat :: k >= e.nextId ==>
      var id := Numbered(c.idPrefix, k);
      id !in l.orders && id !in e.resting && (forall o :: o in e.delayed ==> o.orderId != id) &&
      (forall f :: f in e.pending ==> f.orderId != id)
  }

  ghost predicate Backed(c: Config, s: Exec) {
    Solvent(s.ledger) && EnginePriced(s.engine, s.ledger.orders) && Fresh(c, s.engine, s.ledger)
  }

  lemma NarrowerStaysPriced(c: Config, e: Engine, l: L.State, m: L.State)
    requires EnginePriced(e, l.orders) && Fresh(c, e, l) && Narrower(l.orders, m.orders) && Kept(l, m)
    ensures EnginePriced(e, m.orders) && Fresh(c, e, m)
    ensures EnginePriced(e.(pending := []), m.orders) && Fresh(c, e.(pending := []), m)
  {
  }

  // ----- book updates

  lemma {:induction false} SweepFair(
    c: Config, book: OrderBook, resting: map<string, LiveOrder>, visit: seq<string>, orders: map<string, L.Tracked>)
    requires forall id :: id in resting ==> resting[id].orderId == id && Priced(resting[id], orders)
    ensures forall f :: f in SweepFills(c, book, resting, visit) ==> Fair(orders, f) && f.orderId in resting
    decreases |visit|
  {
    if visit != [] {
      SweepFair(c, book, resting, visit[..|visit| - 1], orders);
    }
  }

  lemma {:induction false} ActivationFair(
    c: Config, token: Token, book: OrderBook, delayed: seq<LiveOrder>, orders: map<string, L.Tracked>)
    requires forall o :: o in delayed ==> Priced(o, orders)
    ensures forall f :: f in ActivationFills(c, token, book, delayed) ==>
      Fair(orders, f) && exists o :: o in delayed && o.orderId == f.orderId
    decreases |delayed|
  {
    hide TakerFill, Matured;
    if delayed != [] {
      var n := |delayed| - 1;
      var last := delayed[n];
      ActivationFair(c, token, book, delayed[..n], orders);
      assert last in delayed;
      O.TakerFacts(c, book, last, book.timestampMs);
    }
  }

  /** Every fill of an update is one already pending or belongs to an order of the engine. */
  lemma UpdateFills(c: Config, s: Exec, token: Token, book: OrderBook, visit: seq<string>, f: Fill)
    requires EnginePriced(s.engine, s.ledger.orders) && f in BookUpdated(c, s.engine, token, book, visit).pending
    ensures Fair(s.ledger.orders, f)
    ensures f in s.engine.pending || f.orderId in s.engine.resting ||
      exists o :: o in s.engine.delayed && o.orderId == f.orderId
  {
    hide SweepFills, ActivationFills, Fair, Swept, StillDelayed, Dropped;
    var now := book.timestampMs;
    var resting := UnexpiredResting(s.engine.resting, token, now);
    var delayed := UnexpiredDelayed(s.engine.delayed, token, now);
    SweepFair(c, book, resting, visit, s.ledger.orders);
    ActivationFair(c, token, book, delayed, s.ledger.orders);
  }

  lemma UpdatePriced(c: Config, s: Exec, token: Token, book: OrderBook, visit: seq<string>)
    requires Backed(c, s)
    ensures var e := BookUpdated(c, s.engine, token, book, visit);
      EnginePriced(e, s.ledger.orders) && Fresh(c, e, s.ledger)
  {
    hide SweepFills, ActivationFills, Solvent, Matured, Dropped, AfterSweep, Fair, Priced;
    var e := BookUpdated(c, s.engine, token, book, visit);
    forall f | f in e.pending
      ensures Fair(s.ledger.orders, f)
      ensures f in s.engine.pending || f.orderId in s.engine.resting ||
        exists o :: o in s.engine.delayed && o.orderId == f.orderId
    {
      UpdateFills(c, s, token, book, visit, f);
    }
    forall id | id in e.resting
      ensures id in s.engine.resting && e.resting[id].orderId == id && Priced(e.resting[id], s.ledger.orders)
    {
      SweptOrderPriced(c, token, book, s.engine.resting[id], s.ledger.orders);
    }
  }

  lemma SweptOrderPriced(c: Config, token: Token, book: OrderBook, o: LiveOrder, orders: map<string, L.Tracked>)
    requires Priced(o, orders)
    ensures match AfterSweep(c, token, book, o)
      case None => true
      case Some(left) => left.orderId == o.orderId && Priced(left, orders)
  {
    hide Crossed;
    O.MakerQuantityBound(c, book, o.order);
  }

  lemma UpdateKeepsBacked(c: Config, s: Exec, token: Token, book: OrderBook, visit: seq<string>, maturing: seq<string>)
    requires Backed(c, s)
    ensures Backed(c, BookUpdatedIn(c, s, token, book, visit, maturing).0)
  {
    hide BookUpdated, RecordAll, CancelEach, Solvent, Fresh, Narrower;
    UpdatePriced(c, s, token, book, visit);
    var e := BookUpdated(c, s.engine, token, book, visit);
    RecordAllKeepsSolvent(s.ledger, e.pending);
    var (recorded, v) := RecordAll(s.ledger, e.pending);
    NarrowerStaysPriced(c, e, s.ledger, recorded);
    CancelEachKeepsSolvent(recorded, maturing, book.timestampMs);
    var closed := CancelEach(recorded, maturing, book.timestampMs).0;
    NarrowerStaysPriced(c, e.(pending := []), recorded, closed);
  }

  // ----- submissions

  ghost predicate NonNegativeOrder(order: PlaceOrder) {
    order.price >= 0.0 && order.qty >= 0.0
  }

  lemma PlacedKeeps(l: L.State, order: PlaceOrder, strategy: Option<string>, now: Millis)
    requires Solvent(l)
    ensures var (m, v) := Placed(l, order, strategy, now);
      Solvent(m) && m.orders == l.orders && m.idPrefix == l.idPrefix && m.cashFunded == l.cashFunded &&
      m.account == l.account && l.nextOrderId <= m.nextOrderId &&
      (v.Ok? ==>
        m.nextOrderId == l.nextOrderId + 1 && L.EventId(l.nextSequence) in m.placements &&
        m.placements[L.EventId(l.nextSequence)].order == L.RecordedOrder(order, strategy))
  {
    hide L.Committed, A.Sound;
  }

  /** Answering a placement opens at most the submitted order, under the id the engine gave. */
  lemma AnsweredKeeps(
    c: Config, l: L.State, placementId: string, expected: string, id: Option<string>, recorded: L.RecordedOrder, now: Millis)
    requires placementId in l.placements && l.placements[placementId].order == recorded
    ensures var (m, v) := Answered(c, l, placementId, expected, id, recorded.place, now);
      m.account == l.account && Kept(l, m) &&
      (m.orders == l.orders ||
        (id == Some(expected) &&
         m.orders == l.orders[expected := L.Tracked(recorded, StateFor(c, recorded.place), now,
                                                    SaturatingAdd(now, c.latencyMs))]))
  {
  }

  /** An affordable order can be reserved in full. */
  lemma ReservationFits(l: L.State, order: PlaceOrder, t: L.Tracked, id: string, m: L.State)
    requires Solvent(l) && NonNegativeOrder(order) && !Unaffordable(l, order) && t.order.place == order
    requires id !in l.orders && m.orders == l.orders[id := t] && m.account == l.account && m.cashFunded == l.cashFunded
    ensures Solvent(m)
  {
    hide Notional, L.Committed, A.Sound;
    L.CommittedUpdate(l.orders, id, t);
  }

  lemma EngineSubmission(c: Config, e: Engine, orders: map<string, L.Tracked>, order: PlaceOrder, strategy: Option<string>, now: Millis)
    requires EnginePriced(e, orders) && NonNegativeOrder(order)
    requires var id := Numbered(c.idPrefix, e.nextId);
      id in orders ==> orders[id].order.place.side == order.side && orders[id].order.place.price == order.price
    ensures EnginePriced(Submitted(c, e, order, strategy, now).0, orders)
  {
    hide TakerFill;
    var o := NewOrder(c, e, order, strategy, now);
    if TokenOf(order) in e.books {
      O.TakerFacts(c, e.books[TokenOf(order)], o, now);
    }
  }

  /** Minting uses one id; everything above it stays unused. */
  lemma SubmissionFresh(c: Config, s: Exec, order: PlaceOrder, strategy: Option<string>, now: Millis, m: L.State)
    requires Fresh(c, s.engine, s.ledger) && m.idPrefix == s.ledger.idPrefix
    requires m.orders.Keys <= s.ledger.orders.Keys + {Numbered(c.idPrefix, s.engine.nextId)}
    requires m.nextOrderId == s.ledger.nextOrderId + 1
    requires m.orders.Keys <= s.ledger.orders.Keys || Submitted(c, s.engine, order, strategy, now).1.Some?
    ensures Fresh(c, Submitted(c, s.engine, order, strategy, now).0, m)
  {
    hide Touches;
    var (e, id) := Submitted(c, s.engine, order, strategy, now);
    forall k: nat | k >= e.nextId
      ensures e.nextId == s.engine.nextId + 1 ==> Numbered(c.idPrefix, k) != Numbered(c.idPrefix, s.engine.nextId)
    {
      NumberedInjective(c.idPrefix, k, s.engine.nextId);
    }
  }

  lemma SubmitKeepsBacked(c: Config, s: Exec, order: PlaceOrder, strategy: Option<string>, now: Millis)
    requires Backed(c, s) && NonNegativeOrder(order)
    ensures Backed(c, SubmittedTo(c, s, order, strategy, now).0)
  {
    hide Submitted, Answered, Placed, RecordAll, Solvent, Fresh, EnginePriced, Narrower, Unaffordable;
    if !c.violatesLimits(order) && !Unaffordable(s.ledger, order) {
      PlacedKeeps(s.ledger, order, strategy, now);
      var (placed, v0) := Placed(s.ledger, order, strategy, now);
      if v0.Err? {
        PlacementAlone(c, s, placed);
      } else {
        var (engine, id) := Submitted(c, s.engine, order, strategy, now);
        var placementId, expected := L.EventId(s.ledger.nextSequence), Numbered(s.ledger.idPrefix, s.ledger.nextOrderId);
        var answered := Answered(c, placed, placementId, expected, id, order, now).0;
        AnsweredKeeps(c, placed, placementId, expected, id, L.RecordedOrder(order, strategy), now);
        OpenedKeeps(c, s, order, strategy, now, placed, answered);
        RecordAllKeepsSolvent(answered, engine.pending) by { PendingFair(engine, answered.orders); }
        NarrowerStaysPriced(c, engine, answered, RecordAll(answered, engine.pending).0);
      }
    }
  }

  lemma PendingFair(e: Engine, orders: map<string, L.Tracked>)
    requires EnginePriced(e, orders)
    ensures FairFills(orders, e.pending)
  {
  }

  lemma PlacementAlone(c: Config, s: Exec, placed: L.State)
    requires Backed(c, s) && placed.orders == s.ledger.orders && placed.idPrefix == s.ledger.idPrefix
    requires s.ledger.nextOrderId <= placed.nextOrderId
    ensures EnginePriced(s.engine, placed.orders) && Fresh(c, s.engine, placed)
  {
  }

  /** After the answer, before its fills are recorded. */
  lemma OpenedKeeps(
    c: Config, s: Exec, order: PlaceOrder, strategy: Option<string>, now: Millis, placed: L.State, answered: L.State)
    requires Backed(c, s) && NonNegativeOrder(order) && !Unaffordable(s.ledger, order)
    requires Solvent(placed) && placed.orders == s.ledger.orders && placed.account == s.ledger.account
    requires placed.idPrefix == s.ledger.idPrefix && placed.cashFunded == s.ledger.cashFunded
    requires placed.nextOrderId == s.ledger.nextOrderId + 1
    requires answered.account == placed.account && Kept(placed, answered)
    requires var expected := Numbered(s.ledger.idPrefix, s.ledger.nextOrderId);
      answered.orders == placed.orders ||
      (Submitted(c, s.engine, order, strategy, now).1 == Some(expected) &&
       answered.orders == placed.orders[expected := L.Tracked(L.RecordedOrder(order, strategy), StateFor(c, order), now,
                                                             SaturatingAdd(now, c.latencyMs))])
    ensures var engine := Submitted(c, s.engine, order, strategy, now).0;
      Solvent(answered) && EnginePriced(engine, answered.orders) && Fresh(c, engine, answered)
  {
    hide Submitted, Solvent, EnginePriced, Unaffordable, StateFor, SaturatingAdd;
    var expected := Numbered(s.ledger.idPrefix, s.ledger.nextOrderId);
    var (engine, id) := Submitted(c, s.engine, order, strategy, now);
    NotYetOpen(c, s);
    if answered.orders == placed.orders {
      SolvencyFrame(placed, answered);
      EngineSubmission(c, s.engine, answered.orders, order, strategy, now);
    } else {
      SubmittedId(c, s.engine, order, strategy, now);
      assert expected !in s.ledger.orders;
      ReservationFits(s.ledger, order, answered.orders[expected], expected, answered);
      OpeningStaysPriced(s.engine, s.ledger.orders, answered.orders, expected);
      EngineSubmission(c, s.engine, answered.orders, order, strategy, now);
    }
    SubmissionFresh(c, s, order, strategy, now, answered);
  }

  lemma NotYetOpen(c: Config, s: Exec)
    requires Fresh(c, s.engine, s.ledger)
    ensures Numbered(c.idPrefix, s.engine.nextId) !in s.ledger.orders && c.idPrefix == s.ledger.idPrefix
    ensures Numbered(c.idPrefix, s.engine.nextId) !in s.engine.resting
    ensures forall o :: o in s.engine.delayed ==> o.orderId != Numbered(c.idPrefix, s.engine.nextId)
    ensures forall f :: f in s.engine.pending ==> f.orderId != Numbered(c.idPrefix, s.engine.nextId)
  {
  }

  lemma SubmittedId(c: Config, e: Engine, order: PlaceOrder, strategy: Option<string>, now: Millis)
    ensures Submitted(c, e, order, strategy, now).1 in {None, Some(Numbered(c.idPrefix, e.nextId))}
  {
    hide TakerFill, Touches;
  }

  lemma SolvencyFrame(l: L.State, m: L.State)
    requires Solvent(l) && m.orders == l.orders && m.account == l.account && m.cashFunded == l.cashFunded
    ensures Solvent(m)
  {
  }

  lemma OpeningStaysPriced(e: Engine, before: map<string, L.Tracked>, after: map<string, L.Tracked>, id: string)
    requires EnginePriced(e, before) && id in after && after == before[id := after[id]]
    requires id !in e.resting && (forall o :: o in e.delayed ==> o.orderId != id) && forall f :: f in e.pending ==> f.orderId != id
    ensures EnginePriced(e, after)
  {
  }

  // ----- runs

  lemma CancelOrderKeepsBacked(c: Config, s: Exec, id: string)
    requires Backed(c, s)
    ensures Backed(c, CancelledIn(s, id).0)
  {
    hide CancelOne, Solvent, Narrower;
    CancelKeepsSolvent(s.ledger, id, s.lastMs);
    NarrowerStaysPriced(c, s.engine, s.ledger, CancelOne(s.ledger, id, s.lastMs).0);
    var e := Cancelled(s.engine, id).0;
    assert forall o :: o in e.delayed ==> o in s.engine.delayed;
  }

  lemma StepKeepsBacked(c: Config, s: Exec, op: Op)
    requires Backed(c, s) && (op.Submit? ==> NonNegativeOrder(op.order))
    ensures Backed(c, Step(c, s, op).0)
  {
    hide Solvent, CancelEach, L.Append, Narrower;
    match op {
      case Submit(order, strategy, now) => SubmitKeepsBacked(c, s, order, strategy, now);
      case UpdateBook(token, book, visit, maturing) => UpdateKeepsBacked(c, s, token, book, visit, maturing);
      case Settle(market, outcome, size, proceeds, now) =>
        SettleKeepsSolvent(s.ledger, now, market, outcome, size, proceeds);
      case Cancel(id) => CancelOrderKeepsBacked(c, s, id);
      case CancelAll(ids) =>
        CancelEachKeepsSolvent(s.ledger, ids, s.lastMs);
        NarrowerStaysPriced(c, s.engine, s.ledger, CancelEach(s.ledger, ids, s.lastMs).0);
    }
  }

  lemma StartIsBacked(c: Config, initialCash: real)
    ensures Backed(c, Start(c, initialCash))
  {
    L.NothingCommitted();
  }

  /**
   * In every state of every funded run of nonnegative orders, failures and late orders included,
   * cash plus cumulative fees covers the notional of all open buys: only fees can take the free
   * balance below zero.
   */
  lemma {:induction false} FundedRunsStaySolvent(c: Config, initialCash: real, states: seq<Exec>, ops: seq<Op>, n: nat)
    requires IsRun(c, initialCash, states, ops) && n <= |ops|
    requires forall i :: 0 <= i < n && ops[i].Submit? ==> NonNegativeOrder(ops[i].order)
    ensures Backed(c, states[n])
    ensures var l := states[n].ledger;
      (l.cashFunded ==> l.account.cash + l.account.fees >= L.Committed(l.orders)) && l.account.fees >= 0.0 &&
      match L.AvailableCash(l) case None => true case Some(free) => free >= -l.account.fees
    decreases n
  {
    hide Step, Allowed, EnginePriced, Fresh, L.Committed;
    if n == 0 {
      StartIsBacked(c, initialCash);
    } else {
      FundedRunsStaySolvent(c, initialCash, states, ops, n - 1);
      StepKeepsBacked(c, states[n - 1], ops[n - 1]);
    }
  }

  /**
   * An accepted buy releases its reservation, for what it fills while it keeps resting and for all of
   * it otherwise, and pays the price and the fee. A complete fill at the limit price therefore costs
   * the free balance exactly the fee, which no reservation covers.
   */
  lemma BuyMovesFreeCash(l: L.State, id: string, fill: A.LedgerFill)
    requires l.cashFunded && id in l.orders && fill.side == Buy && L.FillMatches(l.orders[id], fill)
    requires A.Filled(l.account, fill).1.Accepted?
    ensures var m := L.ApplyFill(l, id, fill).0;
      var place := l.orders[id].order.place;
      var released := Notional(place.price, if id in m.orders then fill.quantity else place.qty);
      && L.AvailableCash(m).Some?
      && L.AvailableCash(m).value
           == L.AvailableCash(l).value + released - Notional(fill.price, fill.quantity) - fill.fee
  {
    hide L.Committed, A.Bought, A.Held, A.Reduced;
    var t := l.orders[id];
    L.CommittedSplit(l.orders, id);
    match L.Remainder(t, fill.quantity) {
      case Some(left) => L.CommittedUpdate(l.orders, id, left);
      case None =>
    }
  }

  /** An accepted sale earns its proceeds and pays its fee; it held nothing back. */
  lemma SaleMovesFreeCash(l: L.State, id: string, fill: A.LedgerFill)
    requires l.cashFunded && id in l.orders && fill.side == Sell && L.FillMatches(l.orders[id], fill)
    requires A.Filled(l.account, fill).1.Accepted?
    ensures var m := L.ApplyFill(l, id, fill).0;
      && L.AvailableCash(m).Some?
      && L.AvailableCash(m).value == L.AvailableCash(l).value + Notional(fill.price, fill.quantity) - fill.fee
  {
    hide L.Committed, A.Bought, A.Held, A.Reduced, Notional;
    var t := l.orders[id];
    L.CommittedSplit(l.orders, id);
    match L.Remainder(t, fill.quantity) {
      case Some(left) => L.CommittedUpdate(l.orders, id, left);
      case None =>
    }
  }

  /** What a fill adds to the free balance before its fee: the proceeds of a sale, or what a buy releases over its price. */
  ghost function Gain(l: L.State, id: string, fill: A.LedgerFill): real
    requires id in l.orders
  {
    var place := l.orders[id].order.place;
    match fill.side
    case Sell => Notional(fill.price, fill.quantity)
    case Buy =>
      var filled := if L.Remainder(l.orders[id], fill.quantity).Some? then fill.quantity else place.qty;
      Notional(place.price, filled) - Notional(fill.price, fill.quantity)
  }

  /** A booked fill leaves the free balance at or above zero if and only if balance and gain cover the fee. */
  lemma FillKeepsBalanceIff(l: L.State, id: string, fill: A.LedgerFill)
    requires l.cashFunded && id in l.orders && L.FillMatches(l.orders[id], fill)
    requires A.Filled(l.account, fill).1.Accepted?
    ensures var m := L.ApplyFill(l, id, fill).0;
      && L.AvailableCash(m).Some?
      && (L.AvailableCash(m).value >= 0.0 <==> fill.fee <= L.AvailableCash(l).value + Gain(l, id, fill))
  {
    hide L.AvailableCash, A.Filled, Notional;
    match fill.side {
      case Sell => SaleMovesFreeCash(l, id, fill);
      case Buy => BuyMovesFreeCash(l, id, fill);
    }
  }
}
