/** What an update that the accounting refuses leaves behind: orders open in the ledger and gone from the engine. */
module Refusals {
  import opened Trading
  import opened Numerals
  import opened Simulator
  import opened Executor
  import opened Agreement
  import A = Accounting
  import L = Ledger
  import D = Divergence

  ghost predicate Open(e: Engine, id: string) {
    id in e.resting || HasDelayed(e, id)
  }

  // ----- where a batch stops

  /** A refused fill changes no order. */
  lemma RefusedFill(l: L.State, f: Fill)
    requires RecordOne(l, f).1.Err?
    ensures RecordOne(l, f).0.orders == l.orders
  {
    hide A.Filled, L.AfterFill;
  }

  /** Recording stops at some fill: those before it are booked, it and all later ones are lost. */
  lemma {:induction false} RecordingStops(l: L.State, fills: seq<Fill>) returns (k: nat)
    requires Expected(l.orders, fills) && RecordAll(l, fills).1.Err?
    ensures k < |fills| && RecordAll(l, fills[..k]).1.Ok?
    ensures RecordAll(l, fills) == RecordOne(RecordAll(l, fills[..k]).0, fills[k])
    ensures RecordedOrders(l.orders, fills[..k], RecordAll(l, fills).0.orders)
    decreases |fills|
  {
    hide RecordOne, RecordedOrders, L.FillMatches;
    var n := |fills| - 1;
    var front := fills[..n];
    assert forall f :: f in front ==> f in fills;
    if RecordAll(l, front).1.Err? {
      k := RecordingStops(l, front);
      assert front[..k] == fills[..k];
    } else {
      k := n;
      RecordAllEffect(l, front);
      RefusedFill(RecordAll(l, front).0, fills[n]);
    }
  }

  // ----- the orders of a refused update

  /**
   * An order that a refused update leaves open in the ledger alone, told from the ledger before the update: it
   * expired, or its delay ended, or a lost fill was for all of it.
   */
  ghost predicate Stranded(t: L.Tracked, id: string, token: Token, now: Millis, booked: seq<Fill>, lost: seq<Fill>) {
    !FillsOrder(booked, id) &&
    ((TokenOf(t.order.place) == token && Expired(t.order.place, now)) || IsMaturing(t, token, now) ||
     exists f :: f in lost && f.orderId == id && f.size == t.order.place.qty)
  }

  /** What an order that the engine still rests looks like in the ledger: a lost fill is the only difference. */
  ghost predicate SameUpTo(o: LiveOrder, orders: map<string, L.Tracked>, lost: seq<Fill>) {
    o.orderId in orders &&
    if FillsOrder(lost, o.orderId)
    then exists f :: f in lost && f.orderId == o.orderId && o.order.qty == orders[o.orderId].order.place.qty - f.size
    else Same(o, orders[o.orderId], L.Resting)
  }

  lemma RestingAfter(
    c: Config, s: Exec, lax: bool, token: Token, book: OrderBook, visit: seq<string>, booked: seq<Fill>, lost: seq<Fill>,
    after: map<string, L.Tracked>, id: string)
    requires Agree(c, s, lax) && IsVisitOf(visit, s.engine, token, book)
    requires MakerPart(c, s.engine, book, visit, booked + lost) && OneEach(booked + lost)
    requires RecordedOrders(s.ledger.orders, booked, after)
    requires id in s.engine.resting && !Dropped(s.engine.resting[id], token, book.timestampMs)
    ensures match AfterSweep(c, token, book, s.engine.resting[id])
      case None => id in after <==> Stranded(s.ledger.orders[id], id, token, book.timestampMs, booked, lost)
      case Some(o) => SameUpTo(o, after, lost) && !Stranded(s.ledger.orders[id], id, token, book.timestampMs, booked, lost)
  {
    hide MakerQuantity, Touches, Agree;
    var o := s.engine.resting[id];
    ShapeOf(c, s, lax, id);
    var fill := MakerFill(c, book, o);
    assert id in visit <==> Crossed(o, token, book);
    MakerFillNames(c, book, o);
    Apart(booked, lost);
    if id in visit && fill.Some? {
      assert fill.value in booked + lost;
      if fill.value in booked {
        assert At(after, id) == L.Remainder(s.ledger.orders[id], fill.value.size);
      } else {
        assert At(after, id) == At(s.ledger.orders, id);
      }
    } else {
      assert !FillsOrder(booked + lost, id);
      assert At(after, id) == At(s.ledger.orders, id);
    }
  }

  lemma Apart(booked: seq<Fill>, lost: seq<Fill>)
    requires OneEach(booked + lost)
    ensures forall f, g :: f in booked && g in lost ==> f.orderId != g.orderId
    ensures forall f :: f in booked + lost <==> f in booked || f in lost
  {
    forall f, g | f in booked && g in lost ensures f.orderId != g.orderId {
      var i :| 0 <= i < |booked| && booked[i] == f;
      var j :| 0 <= j < |lost| && lost[j] == g;
      assert (booked + lost)[i] == f && (booked + lost)[|booked| + j] == g;
    }
  }

  // ----- orders the engine does not know

  /** Nothing in the engine carries this id. */
  ghost predicate Unknown(e: Engine, id: string) {
    (forall x :: x in e.resting ==> x != id && e.resting[x].orderId != id) &&
    (forall o :: o in e.delayed ==> o.orderId != id) && !FillsOrder(e.pending, id)
  }

  lemma NotOpenIsUnknown(e: Engine, id: string)
    requires EngineShape(e) && !Open(e, id)
    ensures Unknown(e, id)
  {
  }

  lemma {:induction false} SweepIgnores(
    c: Config, book: OrderBook, resting: map<string, LiveOrder>, visit: seq<string>, id: string)
    requires forall x :: x in resting ==> resting[x].orderId != id
    ensures !FillsOrder(SweepFills(c, book, resting, visit), id)
    decreases |visit|
  {
    hide MakerFill;
    if visit != [] {
      var last := visit[|visit| - 1];
      SweepIgnores(c, book, resting, visit[..|visit| - 1], id);
      if last in resting {
        MakerFillNames(c, book, resting[last]);
      }
    }
  }

  lemma {:induction false} ActivationIgnores(c: Config, token: Token, book: OrderBook, delayed: seq<LiveOrder>, id: string)
    requires forall o :: o in delayed ==> o.orderId != id
    ensures !FillsOrder(ActivationFills(c, token, book, delayed), id)
    decreases |delayed|
  {
    hide TakerFill;
    if delayed != [] {
      var n := |delayed| - 1;
      ActivationIgnores(c, token, book, delayed[..n], id);
      TakerFillNames(c, book, delayed[n], book.timestampMs);
    }
  }

  lemma UpdateIgnores(c: Config, e: Engine, token: Token, book: OrderBook, visit: seq<string>, id: string)
    requires Unknown(e, id)
    ensures Unknown(BookUpdated(c, e, token, book, visit), id)
  {
    hide MakerFill, Crossed, SweepFills, ActivationFills, Dropped, Matured;
    var now := book.timestampMs;
    SweepIgnores(c, book, UnexpiredResting(e.resting, token, now), visit, id);
    ActivationIgnores(c, token, book, UnexpiredDelayed(e.delayed, token, now), id);
  }

  // ----- what a refused update leaves

  lemma ExpiredAfter(
    c: Config, s: Exec, lax: bool, token: Token, book: OrderBook, visit: seq<string>, booked: seq<Fill>, fills: seq<Fill>,
    after: map<string, L.Tracked>, id: string)
    requires Agree(c, s, lax) && IsVisitOf(visit, s.engine, token, book)
    requires MakerPart(c, s.engine, book, visit, fills) && (forall f :: f in booked ==> f in fills)
    requires RecordedOrders(s.ledger.orders, booked, after)
    requires id in s.engine.resting && Dropped(s.engine.resting[id], token, book.timestampMs)
    ensures id in after && !FillsOrder(booked, id) && id !in BookUpdated(c, s.engine, token, book, visit).resting
  {
    hide MakerFill, SweepFills, ActivationFills, AfterSweep, Agree;
    ShapeOf(c, s, lax, id);
    assert id !in visit;
    assert !FillsOrder(booked, id);
    assert At(after, id) == At(s.ledger.orders, id);
  }

  lemma DelayedAfter(
    c: Config, s: Exec, lax: bool, token: Token, book: OrderBook, visit: seq<string>, booked: seq<Fill>, lost: seq<Fill>,
    after: map<string, L.Tracked>, o: LiveOrder)
    requires Agree(c, s, lax) && TakerPart(s.engine, token, book, booked + lost)
    requires RecordedOrders(s.ledger.orders, booked, after) && o in s.engine.delayed
    ensures var t := s.ledger.orders[o.orderId];
      if Dropped(o, token, book.timestampMs) || Matured(o, token, book.timestampMs)
      then o.orderId in after <==> !FillsOrder(booked, o.orderId)
      else !FillsOrder(booked, o.orderId) && !FillsOrder(lost, o.orderId) && o.orderId in after && Same(o, after[o.orderId], L.Delayed)
  {
    var id := o.orderId;
    assert forall f :: f in booked || f in lost ==> f in booked + lost;
    if FillsOrder(booked, id) {
      var f :| f in booked && f.orderId == id;
      assert At(after, id) == L.Remainder(s.ledger.orders[id], f.size);
    } else {
      assert At(after, id) == At(s.ledger.orders, id);
    }
  }

  /** The engine's delayed orders after an update, and the ids that stay open. */
  lemma StillOpen(c: Config, e: Engine, token: Token, book: OrderBook, visit: seq<string>)
    requires EngineShape(e)
    ensures var f, now := BookUpdated(c, e, token, book, visit), book.timestampMs;
      && (forall o :: o in f.delayed <==> o in e.delayed && !Dropped(o, token, now) && !Matured(o, token, now))
      && (forall o :: o in e.delayed ==> (Open(f, o.orderId) <==> !Dropped(o, token, now) && !Matured(o, token, now)))
      && (forall id :: id in e.resting ==>
           (Open(f, id) <==> !Dropped(e.resting[id], token, now) && AfterSweep(c, token, book, e.resting[id]).Some?))
      && (forall id :: id in f.resting ==> id in e.resting && AfterSweep(c, token, book, e.resting[id]) == Some(f.resting[id]))
  {
    hide AfterSweep, Dropped, Matured, SweepFills, ActivationFills;
    var f := BookUpdated(c, e, token, book, visit);
    forall o | o in e.delayed && o !in f.delayed ensures !Open(f, o.orderId) {
      SameDelayed(e, o);
    }
  }

  /** One open order of the ledger: left to the ledger alone if it was so before, or if the update strands it. */
  lemma LeftToLedger(
    c: Config, s: Exec, lax: bool, token: Token, book: OrderBook, visit: seq<string>, booked: seq<Fill>, lost: seq<Fill>,
    after: map<string, L.Tracked>, id: string)
    requires Agree(c, s, lax) && IsVisitOf(visit, s.engine, token, book) && id in s.ledger.orders
    requires BookUpdated(c, s.engine, token, book, visit).pending == booked + lost
    requires RecordedOrders(s.ledger.orders, booked, after)
    ensures id in after && !Open(BookUpdated(c, s.engine, token, book, visit), id) <==>
      !Open(s.engine, id) || Stranded(s.ledger.orders[id], id, token, book.timestampMs, booked, lost)
  {
    hide BookUpdated, AfterSweep, RecordedOrders, MakerPart, TakerPart, IsVisitOf, Agree, EngineShape, Expected, OneEach;
    var now := book.timestampMs;
    UpdateParts(c, s, lax, token, book, visit);
    assert OneEach(booked + lost) by { UpdateExpected(c, s, lax, token, book, visit); OnePerOrder(s.ledger.orders, booked + lost); }
    assert EngineShape(s.engine) by { ShapeHolds(c, s, lax); }
    StillOpen(c, s.engine, token, book, visit);
    if id in s.engine.resting {
      ShapeOf(c, s, lax, id);
      if Dropped(s.engine.resting[id], token, now) {
        AllBooked(booked, lost);
        ExpiredAfter(c, s, lax, token, book, visit, booked, booked + lost, after, id);
      } else {
        RestingAfter(c, s, lax, token, book, visit, booked, lost, after, id);
      }
    } else if HasDelayed(s.engine, id) {
      var o :| o in s.engine.delayed && o.orderId == id;
      DelayedAfter(c, s, lax, token, book, visit, booked, lost, after, o);
      DelayedShape(c, s, lax, o);
    } else {
      UnknownStays(c, s, token, book, visit, booked, lost, after, id);
    }
  }

  lemma OnePerOrder(orders: map<string, L.Tracked>, fills: seq<Fill>)
    requires Expected(orders, fills)
    ensures OneEach(fills)
  {
  }

  lemma ShapeHolds(c: Config, s: Exec, lax: bool)
    requires Agree(c, s, lax)
    ensures EngineShape(s.engine)
  {
  }

  lemma DelayedShape(c: Config, s: Exec, lax: bool, o: LiveOrder)
    requires Agree(c, s, lax) && o in s.engine.delayed
    ensures o.orderId in s.ledger.orders && Same(o, s.ledger.orders[o.orderId], L.Delayed)
  {
  }

  lemma AllBooked(booked: seq<Fill>, lost: seq<Fill>)
    ensures forall f :: f in booked ==> f in booked + lost
  {
  }

  lemma UnknownStays(
    c: Config, s: Exec, token: Token, book: OrderBook, visit: seq<string>, booked: seq<Fill>, lost: seq<Fill>,
    after: map<string, L.Tracked>, id: string)
    requires EngineShape(s.engine) && !Open(s.engine, id) && id in s.ledger.orders
    requires BookUpdated(c, s.engine, token, book, visit).pending == booked + lost
    requires RecordedOrders(s.ledger.orders, booked, after)
    ensures id in after && !Open(BookUpdated(c, s.engine, token, book, visit), id)
  {
    hide BookUpdated;
    NotOpenIsUnknown(s.engine, id);
    UpdateIgnores(c, s.engine, token, book, visit, id);
    AllBooked(booked, lost);
    assert !FillsOrder(booked, id);
    assert At(after, id) == At(s.ledger.orders, id);
  }

  /** An order that stays open in the engine is open in the ledger, up to a lost fill. */
  lemma KeptByEngine(
    c: Config, s: Exec, lax: bool, token: Token, book: OrderBook, visit: seq<string>, booked: seq<Fill>, lost: seq<Fill>,
    after: map<string, L.Tracked>)
    requires Agree(c, s, lax) && IsVisitOf(visit, s.engine, token, book)
    requires BookUpdated(c, s.engine, token, book, visit).pending == booked + lost
    requires RecordedOrders(s.ledger.orders, booked, after)
    ensures var e := BookUpdated(c, s.engine, token, book, visit);
      && (forall id :: id in e.resting ==> SameUpTo(e.resting[id], after, lost))
      && (forall o :: o in e.delayed ==> o.orderId in after && Same(o, after[o.orderId], L.Delayed))
  {
    hide BookUpdated, AfterSweep, RecordedOrders, MakerPart, TakerPart, IsVisitOf, Agree, EngineShape, Expected, OneEach,
      SameUpTo, Same;
    var e := BookUpdated(c, s.engine, token, book, visit);
    UpdateParts(c, s, lax, token, book, visit);
    UpdateExpected(c, s, lax, token, book, visit);
    OnePerOrder(s.ledger.orders, booked + lost);
    ShapeHolds(c, s, lax);
    StillOpen(c, s.engine, token, book, visit);
    forall id | id in e.resting ensures SameUpTo(e.resting[id], after, lost) {
      assert Open(e, id);
      RestingAfter(c, s, lax, token, book, visit, booked, lost, after, id);
    }
    forall o | o in e.delayed ensures o.orderId in after && Same(o, after[o.orderId], L.Delayed) {
      DelayedAfter(c, s, lax, token, book, visit, booked, lost, after, o);
    }
  }

  /**
   * An update that the accounting refuses at its fill `k`. The fills before `k` are booked, the others are lost:
   * the engine has carried them out and the ledger never hears of them. Exactly the stranded orders are newly open
   * in the ledger alone, and an order that both keep differs by its lost fill.
   */
  lemma RefusedUpdate(c: Config, s: Exec, lax: bool, token: Token, book: OrderBook, visit: seq<string>, maturing: seq<string>)
    returns (k: nat)
    requires Agree(c, s, lax) && IsVisitOf(visit, s.engine, token, book)
    requires BookUpdatedIn(c, s, token, book, visit, maturing).1.Faulted?
    ensures var fills := BookUpdated(c, s.engine, token, book, visit).pending;
      var (t, r) := BookUpdatedIn(c, s, token, book, visit, maturing);
      && k < |fills| && RecordAll(s.ledger, fills[..k]).1.Ok? && r.error.AccountingFailed?
      && RecordOne(RecordAll(s.ledger, fills[..k]).0, fills[k]) == (t.ledger, L.Err(r.error))
      && (forall id :: id in t.ledger.orders && !Open(t.engine, id) <==>
           id in s.ledger.orders && (!Open(s.engine, id) ||
             Stranded(s.ledger.orders[id], id, token, book.timestampMs, fills[..k], fills[k..])))
      && (forall id :: id in t.engine.resting ==> SameUpTo(t.engine.resting[id], t.ledger.orders, fills[k..]))
      && (forall o :: o in t.engine.delayed ==>
           o.orderId in t.ledger.orders && Same(o, t.ledger.orders[o.orderId], L.Delayed))
  {
    hide BookUpdated, RecordAll, RecordOne, CancelEach, RecordedOrders, IsVisitOf, Agree, Expected, Stranded, SameUpTo, Same;
    var engine := BookUpdated(c, s.engine, token, book, visit);
    var fills := engine.pending;
    UpdateExpected(c, s, lax, token, book, visit);
    RecordAllEffect(s.ledger, fills);
    CancelEachEffect(RecordAll(s.ledger, fills).0, maturing, book.timestampMs);
    k := RecordingStops(s.ledger, fills);
    var t := BookUpdatedIn(c, s, token, book, visit, maturing).0;
    assert t.ledger == RecordAll(s.ledger, fills).0 && t.engine == engine.(pending := []);
    assert fills == fills[..k] + fills[k..];
    KeptByEngine(c, s, lax, token, book, visit, fills[..k], fills[k..], t.ledger.orders);
    forall id ensures Open(t.engine, id) <==> Open(engine, id) {
      assert t.engine.delayed == engine.delayed;
    }
    forall id | id in s.ledger.orders
      ensures id in t.ledger.orders && !Open(t.engine, id) <==>
        !Open(s.engine, id) || Stranded(s.ledger.orders[id], id, token, book.timestampMs, fills[..k], fills[k..])
    {
      LeftToLedger(c, s, lax, token, book, visit, fills[..k], fills[k..], t.ledger.orders, id);
    }
    NoNewOrders(s.ledger.orders, fills, fills[..k], t.ledger.orders);
  }

  lemma NoNewOrders(before: map<string, L.Tracked>, fills: seq<Fill>, booked: seq<Fill>, after: map<string, L.Tracked>)
    requires Expected(before, fills) && (forall f :: f in booked ==> f in fills) && RecordedOrders(before, booked, after)
    ensures after.Keys <= before.Keys
  {
    hide L.FillMatches, L.Remainder;
    forall id | id in after ensures id in before {
      if !FillsOrder(booked, id) {
        assert At(after, id) == At(before, id);
      }
    }
  }

  // ----- an order the ledger alone keeps is kept for good

  /** An order past its delay that is open in the ledger while nothing in the engine carries its id. */
  ghost predicate Abandoned(c: Config, s: Exec, k: nat, t: L.Tracked) {
    var id := Numbered(c.idPrefix, k);
    && Unknown(s.engine, id) && k < s.engine.nextId && k < s.ledger.nextOrderId && s.ledger.idPrefix == c.idPrefix
    && id in s.ledger.orders && s.ledger.orders[id] == t && t.state == L.Resting
  }

  /** A ledger step that leaves this order, the counter and the prefix alone. */
  ghost predicate Passes(l: L.State, m: L.State, id: string) {
    At(m.orders, id) == At(l.orders, id) && m.nextOrderId >= l.nextOrderId && m.idPrefix == l.idPrefix
  }

  lemma FillPasses(l: L.State, f: Fill, id: string)
    requires f.orderId != id
    ensures Passes(l, RecordOne(l, f).0, id)
  {
    hide A.Filled, L.FillMatches;
  }

  lemma {:induction false} FillsPass(l: L.State, fills: seq<Fill>, id: string)
    requires !FillsOrder(fills, id)
    ensures Passes(l, RecordAll(l, fills).0, id)
    decreases |fills|
  {
    hide RecordOne;
    if fills != [] {
      var n := |fills| - 1;
      FillsPass(l, fills[..n], id);
      FillPasses(RecordAll(l, fills[..n]).0, fills[n], id);
    }
  }

  lemma CancelPasses(l: L.State, x: string, now: Millis, id: string)
    requires x != id
    ensures Passes(l, CancelOne(l, x, now).0, id)
  {
  }

  lemma {:induction false} CancelsPass(l: L.State, ids: seq<string>, now: Millis, id: string)
    requires id !in ids
    ensures Passes(l, CancelEach(l, ids, now).0, id)
    decreases |ids|
  {
    hide CancelOne;
    if ids != [] {
      var n := |ids| - 1;
      CancelsPass(l, ids[..n], now, id);
      CancelPasses(CancelEach(l, ids[..n], now).0, ids[n], now, id);
    }
  }

  lemma PlacePasses(l: L.State, order: PlaceOrder, strategy: Option<string>, now: Millis, id: string)
    ensures Passes(l, Placed(l, order, strategy, now).0, id)
  {
  }

  lemma AnswerPasses(
    c: Config, l: L.State, placementId: string, expected: string, answer: Option<string>, order: PlaceOrder, now: Millis,
    id: string)
    requires id != expected
    ensures Passes(l, Answered(c, l, placementId, expected, answer, order, now).0, id)
  {
  }

  lemma PlaceAndAnswerPass(
    c: Config, l: L.State, order: PlaceOrder, strategy: Option<string>, answer: Option<string>, now: Millis, id: string)
    requires id != Numbered(l.idPrefix, l.nextOrderId)
    ensures var placed := Placed(l, order, strategy, now).0;
      && Passes(l, placed, id)
      && Passes(l, Answered(c, placed, L.EventId(l.nextSequence), Numbered(l.idPrefix, l.nextOrderId), answer, order, now).0, id)
  {
    hide Placed, Answered;
    PlacePasses(l, order, strategy, now, id);
    AnswerPasses(c, Placed(l, order, strategy, now).0, L.EventId(l.nextSequence), Numbered(l.idPrefix, l.nextOrderId),
                 answer, order, now, id);
  }

  lemma SubmitIgnores(
    c: Config, e: Engine, order: PlaceOrder, strategy: Option<string>, now: Millis, id: string)
    requires Unknown(e, id) && id != Numbered(c.idPrefix, e.nextId)
    ensures var f := Submitted(c, e, order, strategy, now).0; Unknown(f, id) && f.nextId >= e.nextId
  {
    hide Touches, TakerFill;
    var token, o := TokenOf(order), NewOrder(c, e, order, strategy, now);
    if token in e.books {
      TakerFillNames(c, e.books[token], o, now);
    }
  }

  lemma NoFillFor(e: Engine, id: string)
    requires Unknown(e, id)
    ensures !FillsOrder(e.pending, id) && Unknown(e.(pending := []), id)
  {
  }

  lemma SubmitKeepsAbandoned(
    c: Config, s: Exec, order: PlaceOrder, strategy: Option<string>, now: Millis, k: nat, t: L.Tracked)
    requires Abandoned(c, s, k, t)
    ensures Abandoned(c, SubmittedTo(c, s, order, strategy, now).0, k, t)
  {
    hide Submitted, Placed, Answered, RecordAll, Unaffordable;
    var id, l := Numbered(c.idPrefix, k), s.ledger;
    NumberedInjective(c.idPrefix, k, s.engine.nextId);
    NumberedInjective(c.idPrefix, k, l.nextOrderId);
    var (engine, answer) := Submitted(c, s.engine, order, strategy, now);
    SubmitIgnores(c, s.engine, order, strategy, now, id);
    hide Unknown, FillsOrder, Numbered, L.EventId;
    assert !FillsOrder(engine.pending, id) by { NoFillFor(engine, id); }
    PlaceAndAnswerPass(c, l, order, strategy, answer, now, id);
    var answered := Answered(c, Placed(l, order, strategy, now).0, L.EventId(l.nextSequence),
                             Numbered(l.idPrefix, l.nextOrderId), answer, order, now).0;
    FillsPass(answered, engine.pending, id);
  }

  lemma CancelKeepsUnknown(e: Engine, x: string, id: string)
    requires Unknown(e, id)
    ensures Unknown(Cancelled(e, x).0, id) && Cancelled(e, x).0.nextId == e.nextId && !Cancelled(e, id).1
  {
  }

  /** No executor call, accepted or refused, closes or changes an abandoned order. */
  lemma StepKeepsAbandoned(c: Config, s: Exec, op: Op, k: nat, t: L.Tracked)
    requires Abandoned(c, s, k, t) && Allowed(s, op)
    ensures Abandoned(c, Step(c, s, op).0, k, t)
  {
    hide RecordAll, CancelEach, CancelOne, BookUpdated, Cancelled, SubmittedTo, L.Append, IsVisitOf;
    var id := Numbered(c.idPrefix, k);
    match op {
      case Submit(order, strategy, now) => SubmitKeepsAbandoned(c, s, order, strategy, now, k, t);
      case UpdateBook(token, book, visit, maturing) =>
        var engine := BookUpdated(c, s.engine, token, book, visit);
        UpdateIgnores(c, s.engine, token, book, visit, id);
        UpdateMintsNothing(c, s.engine, token, book, visit);
        FillsPass(s.ledger, engine.pending, id);
        CancelsPass(RecordAll(s.ledger, engine.pending).0, maturing, book.timestampMs, id);
      case Settle(market, outcome, size, proceeds, now) =>
        SettlePasses(s.ledger, now, market, outcome, size, proceeds, id);
      case Cancel(x) =>
        CancelKeepsUnknown(s.engine, x, id);
        if x != id { CancelPasses(s.ledger, x, s.lastMs, id); }
      case CancelAll(ids) => CancelsPass(s.ledger, ids, s.lastMs, id);
    }
  }

  lemma SettlePasses(
    l: L.State, now: Millis, market: string, outcome: Outcome, size: real, proceeds: real, id: string)
    ensures Passes(l, L.Append(l, now, L.Settlement(market, outcome, size, proceeds)).0, id)
  {
    hide A.Settled, A.Held;
  }

  /** In every continuation of a run an abandoned order stays open in the ledger as it is, and unknown to the engine. */
  lemma {:induction false} AbandonedForever(
    c: Config, initialCash: real, states: seq<Exec>, ops: seq<Op>, i: nat, n: nat, k: nat, t: L.Tracked)
    requires IsRun(c, initialCash, states, ops) && i <= n <= |ops| && Abandoned(c, states[i], k, t)
    ensures Abandoned(c, states[n], k, t)
    decreases n
  {
    hide Step, Allowed, Abandoned;
    if i < n {
      AbandonedForever(c, initialCash, states, ops, i, n - 1, k, t);
      StepKeepsAbandoned(c, states[n - 1], ops[n - 1], k, t);
    }
  }

  /** What an update leaves of the ledger, accepted or refused: the same counter, and no order it did not have. */
  lemma UpdateOpensNothing(
    c: Config, s: Exec, lax: bool, token: Token, book: OrderBook, visit: seq<string>, maturing: seq<string>)
    requires Agree(c, s, lax) && IsVisitOf(visit, s.engine, token, book)
    ensures var l := BookUpdatedIn(c, s, token, book, visit, maturing).0.ledger;
      l.orders.Keys <= s.ledger.orders.Keys && l.nextOrderId == s.ledger.nextOrderId && l.idPrefix == s.ledger.idPrefix
  {
    hide BookUpdated, RecordAll, RecordOne, CancelEach, RecordedOrders, IsVisitOf, Agree, Expected;
    var fills := BookUpdated(c, s.engine, token, book, visit).pending;
    var (recorded, v) := RecordAll(s.ledger, fills);
    UpdateExpected(c, s, lax, token, book, visit);
    D.QuietRecords(s.ledger, fills);
    if v.Ok? {
      RecordAllEffect(s.ledger, fills);
      NoNewOrders(s.ledger.orders, fills, fills, recorded.orders);
    } else {
      var k := RecordingStops(s.ledger, fills);
      NoNewOrders(s.ledger.orders, fills, fills[..k], recorded.orders);
    }
    CancelEachEffect(recorded, maturing, book.timestampMs);
  }

  /** A resting order that an update leaves to the ledger alone is abandoned. */
  lemma LeftIsAbandoned(
    c: Config, s: Exec, lax: bool, token: Token, book: OrderBook, visit: seq<string>, maturing: seq<string>, k: nat)
    requires Agree(c, s, lax) && IsVisitOf(visit, s.engine, token, book)
    requires var t, id := BookUpdatedIn(c, s, token, book, visit, maturing).0, Numbered(c.idPrefix, k);
      id in t.ledger.orders && t.ledger.orders[id].state == L.Resting && !Open(t.engine, id)
    ensures var t := BookUpdatedIn(c, s, token, book, visit, maturing).0;
      Abandoned(c, t, k, t.ledger.orders[Numbered(c.idPrefix, k)])
  {
    hide BookUpdated, RecordAll, CancelEach, IsVisitOf, EngineShape, EngineInLedger, LedgerInEngine, PlacementsAnswered;
    var t, id := BookUpdatedIn(c, s, token, book, visit, maturing).0, Numbered(c.idPrefix, k);
    UpdateOpensNothing(c, s, lax, token, book, visit, maturing);
    UpdateShape(c, s, lax, token, book, visit);
    UpdateMintsNothing(c, s.engine, token, book, visit);
    assert t.engine == BookUpdated(c, s.engine, token, book, visit).(pending := []);
    NotOpenIsUnknown(t.engine, id);
  }

  /**
   * A resting order that some update leaves open in the ledger alone, because the accounting refused the update or
   * because the order expired, is open there in every later state of the run: no fill, cancellation, expiry or
   * settlement ever closes it, and its notional stays committed.
   */
  lemma LeftForever(
    c: Config, initialCash: real, states: seq<Exec>, ops: seq<Op>, lax: bool, i: nat, n: nat, k: nat)
    requires IsRun(c, initialCash, states, ops) && i < n <= |ops| && ops[i].UpdateBook? && Agree(c, states[i], lax)
    requires var t, id := states[i + 1], Numbered(c.idPrefix, k);
      id in t.ledger.orders && t.ledger.orders[id].state == L.Resting && !Open(t.engine, id)
    ensures var id := Numbered(c.idPrefix, k);
      && id in states[n].ledger.orders && states[n].ledger.orders[id] == states[i + 1].ledger.orders[id]
      && !Open(states[n].engine, id)
  {
    hide BookUpdatedIn, Agree, IsVisitOf;
    var op := ops[i];
    assert Allowed(states[i], op) && states[i + 1] == Step(c, states[i], op).0;
    LeftIsAbandoned(c, states[i], lax, op.token, op.book, op.visit, op.maturing, k);
    AbandonedForever(c, initialCash, states, ops, i + 1, n, k, states[i + 1].ledger.orders[Numbered(c.idPrefix, k)]);
  }
}
