/** The engine and the ledger describe the same open orders. */
module Agreement {
  import opened Trading
  import opened Numerals
  import opened Simulator
  import opened Executor
  import A = Accounting
  import L = Ledger
  import O = OrderLifecycle
  import X = Execution

  /** The ledger's record of an order has the engine's terms and times, remaining quantity included. */
  predicate Same(o: LiveOrder, t: L.Tracked, state: L.OrderState) {
    t.order.place == o.order && t.state == state && t.submittedMs == o.submittedMs && t.activeAtMs == o.activeAtMs
  }

  ghost predicate HasDelayed(e: Engine, id: string) {
    exists o :: o in e.delayed && o.orderId == id
  }

  ghost predicate EngineShape(e: Engine) {
    e.pending == [] && O.DistinctIds(e.delayed) &&
    (forall id :: id in e.resting ==> e.resting[id].orderId == id) &&
    (forall o :: o in e.delayed ==> o.orderId !in e.resting)
  }

  /** Every open order of the engine is open in the ledger, with the same terms and remainder. */
  ghost predicate EngineInLedger(e: Engine, l: L.State) {
    (forall id :: id in e.resting ==> id in l.orders && Same(e.resting[id], l.orders[id], L.Resting)) &&
    (forall o :: o in e.delayed ==> o.orderId in l.orders && Same(o, l.orders[o.orderId], L.Delayed))
  }

  /**
   * An open order of the ledger is open in the engine. The lax form excuses orders that can expire:
   * the engine drops those without telling the ledger.
   */
  ghost predicate LedgerInEngine(e: Engine, l: L.State, lax: bool) {
    forall id :: id in l.orders ==>
      match l.orders[id].state
      case Immediate => false
      case Resting => id in e.resting || (lax && l.orders[id].order.place.tif.Gtd?)
      case Delayed => HasDelayed(e, id) || (lax && l.orders[id].order.place.tif.Gtd?)
  }

  ghost predicate SameCounter(c: Config, s: Exec) {
    s.ledger.idPrefix == c.idPrefix && s.engine.nextId == s.ledger.nextOrderId &&
    (forall k: nat :: k >= s.ledger.nextOrderId ==> Numbered(c.idPrefix, k) !in s.ledger.orders)
  }

  ghost predicate PlacementsAnswered(l: L.State) {
    (forall id :: id in l.placements ==> l.placements[id].terminal.Some?) &&
    (forall k: nat :: k >= l.nextSequence ==> L.EventId(k) !in l.placements)
  }

  ghost predicate Agree(c: Config, s: Exec, lax: bool) {
    EngineShape(s.engine) && EngineInLedger(s.engine, s.ledger) && LedgerInEngine(s.engine, s.ledger, lax) &&
    SameCounter(c, s) && PlacementsAnswered(s.ledger)
  }

  // ----- recording a batch of fills

  /** At most one fill per order. */
  ghost predicate OneEach(fills: seq<Fill>) {
    forall i, j :: 0 <= i < j < |fills| ==> fills[i].orderId != fills[j].orderId
  }

  lemma OneEachJoins(a: seq<Fill>, b: seq<Fill>)
    requires OneEach(a) && OneEach(b) && forall f, g :: f in a && g in b ==> f.orderId != g.orderId
    ensures OneEach(a + b)
  {
    assert forall i :: 0 <= i < |a| ==> a[i] in a;
    assert forall i :: 0 <= i < |b| ==> b[i] in b;
  }

  /** Fills the ledger expects: one per order, each matching the order it names. */
  ghost predicate Expected(orders: map<string, L.Tracked>, fills: seq<Fill>) {
    OneEach(fills) &&
    (forall f :: f in fills ==> f.orderId in orders && L.FillMatches(orders[f.orderId], LedgerFillOf(f)))
  }

  ghost predicate FillsOrder(fills: seq<Fill>, id: string) {
    exists f :: f in fills && f.orderId == id
  }

  function At(orders: map<string, L.Tracked>, id: string): Option<L.Tracked> {
    if id in orders then Some(orders[id]) else None
  }

  /** Per order: untouched without a fill, and with one fill as that fill leaves it. */
  ghost predicate RecordedOrders(before: map<string, L.Tracked>, fills: seq<Fill>, after: map<string, L.Tracked>) {
    (forall id :: !FillsOrder(fills, id) ==> At(after, id) == At(before, id)) &&
    (forall f :: f in fills && f.orderId in before ==> At(after, f.orderId) == L.Remainder(before[f.orderId], f.size))
  }

  /** What recording leaves alone. */
  ghost predicate SameBut(l: L.State, m: L.State) {
    m.placements == l.placements && m.nextOrderId == l.nextOrderId && m.idPrefix == l.idPrefix &&
    m.nextSequence >= l.nextSequence
  }

  lemma RecordOneEffect(l: L.State, f: Fill)
    requires f.orderId in l.orders && L.FillMatches(l.orders[f.orderId], LedgerFillOf(f))
    ensures var (m, v) := RecordOne(l, f);
      (v.Err? ==> v.error.AccountingFailed?) &&
      (v.Ok? ==> SameBut(l, m) && m.orders == L.AfterFill(l.orders, f.orderId, f.size))
  {
    hide A.Filled, L.AfterFill;
  }

  /** A batch of expected fills is recorded order by order; only accounting can refuse one. */
  lemma {:induction false} RecordAllEffect(l: L.State, fills: seq<Fill>)
    requires Expected(l.orders, fills)
    ensures var (m, v) := RecordAll(l, fills);
      (v.Err? ==> v.error.AccountingFailed?) &&
      (v.Ok? ==> SameBut(l, m) && RecordedOrders(l.orders, fills, m.orders))
    decreases |fills|
  {
    hide RecordOne, L.AfterFill, L.FillMatches;
    if fills != [] {
      var n := |fills| - 1;
      var front, last := fills[..n], fills[n];
      assert forall f :: f in fills <==> f in front || f == last;
      RecordAllEffect(l, front);
      var (m, v) := RecordAll(l, front);
      if v.Ok? {
        assert !FillsOrder(front, last.orderId);
        assert last.orderId in m.orders && m.orders[last.orderId] == l.orders[last.orderId];
        RecordOneEffect(m, last);
        if RecordOne(m, last).1.Ok? {
          RecordedOneMore(l.orders, front, m.orders, last);
          assert front + [last] == fills;
        }
      }
    }
  }

  lemma RecordedOneMore(
    before: map<string, L.Tracked>, fills: seq<Fill>, middle: map<string, L.Tracked>, last: Fill)
    requires RecordedOrders(before, fills, middle) && !FillsOrder(fills, last.orderId)
    requires last.orderId in before && last.orderId in middle && middle[last.orderId] == before[last.orderId]
    ensures RecordedOrders(before, fills + [last], L.AfterFill(middle, last.orderId, last.size))
  {
    hide L.Remainder;
    var after := L.AfterFill(middle, last.orderId, last.size);
    assert At(after, last.orderId) == L.Remainder(before[last.orderId], last.size);
    assert forall id :: id != last.orderId ==> At(after, id) == At(middle, id);
    forall id | !FillsOrder(fills + [last], id) ensures At(after, id) == At(before, id) {
      assert last in fills + [last];
      assert forall f :: f in fills ==> f in fills + [last];
      assert !FillsOrder(fills, id);
    }
    forall f | f in fills + [last] && f.orderId in before
      ensures At(after, f.orderId) == L.Remainder(before[f.orderId], f.size)
    {
      assert f in fills || f == last;
    }
  }

  lemma {:induction false} CancelEachEffect(l: L.State, ids: seq<string>, now: Millis)
    ensures var (m, v) := CancelEach(l, ids, now);
      v.Ok? && SameBut(l, m) && m.orders == l.orders - (set id | id in ids)
    decreases |ids|
  {
    if ids == [] {
      assert (set id | id in ids) == {};
    } else {
      var n := |ids| - 1;
      CancelEachEffect(l, ids[..n], now);
      assert (set id | id in ids) == (set id | id in ids[..n]) + {ids[n]};
    }
  }

  // ----- the fills of one update, order by order

  lemma {:induction false} SweepMembers(
    c: Config, book: OrderBook, resting: map<string, LiveOrder>, visit: seq<string>)
    requires forall id :: id in resting ==> resting[id].orderId == id
    requires NoDuplicates(visit) && forall id :: id in visit ==> id in resting
    ensures var fills := SweepFills(c, book, resting, visit);
      (forall f :: f in fills <==> f.orderId in visit && MakerFill(c, book, resting[f.orderId]) == Some(f)) &&
      OneEach(fills)
    decreases |visit|
  {
    hide MakerFill;
    if visit != [] {
      var n := |visit| - 1;
      var last := visit[n];
      SweepMembers(c, book, resting, visit[..n]);
      var front := SweepFills(c, book, resting, visit[..n]);
      assert forall id :: id in visit <==> id in visit[..n] || id == last;
      assert last !in visit[..n];
      MakerFillNames(c, book, resting[last]);
      var fills := SweepFills(c, book, resting, visit);
      var fill := MakerFill(c, book, resting[last]);
      assert fills == front + OneOrNone(fill);
      assert forall f :: f in fills <==> f in front || Some(f) == fill;
      OneEachJoins(front, OneOrNone(fill));
    }
  }

  /** A fill of this order, on its own token and side and within its quantity. */
  predicate Names(f: Fill, o: LiveOrder) {
    f.orderId == o.orderId && f.market == o.order.market && f.outcome == o.order.outcome &&
    f.side == o.order.side && f.size <= o.order.qty
  }

  lemma MakerFillNames(c: Config, book: OrderBook, o: LiveOrder)
    ensures match MakerFill(c, book, o)
      case None => true
      case Some(f) => Names(f, o)
  {
    hide Against;
  }

  lemma TakerFillNames(c: Config, book: OrderBook, o: LiveOrder, now: Millis)
    ensures match TakerFill(c, book, o, now)
      case None => true
      case Some(f) => Names(f, o)
  {
    O.TakerFacts(c, book, o, now);
  }

  ghost predicate ActivatedBy(
    c: Config, token: Token, book: OrderBook, delayed: seq<LiveOrder>, f: Fill, o: LiveOrder)
  {
    o in delayed && o.orderId == f.orderId && Matured(o, token, book.timestampMs) &&
    TakerFill(c, book, o, book.timestampMs) == Some(f)
  }

  ghost predicate Activated(c: Config, token: Token, book: OrderBook, delayed: seq<LiveOrder>, f: Fill) {
    exists o :: ActivatedBy(c, token, book, delayed, f, o)
  }

  lemma {:induction false} ActivationMembers(c: Config, token: Token, book: OrderBook, delayed: seq<LiveOrder>)
    requires O.DistinctIds(delayed)
    ensures var fills := ActivationFills(c, token, book, delayed);
      (forall f :: f in fills ==> Activated(c, token, book, delayed, f)) &&
      OneEach(fills)
    decreases |delayed|
  {
    hide TakerFill, Matured;
    if delayed != [] {
      var n := |delayed| - 1;
      var last := delayed[n];
      ActivationMembers(c, token, book, delayed[..n]);
      var front := ActivationFills(c, token, book, delayed[..n]);
      TakerFillNames(c, book, last, book.timestampMs);
      assert forall o :: o in delayed <==> o in delayed[..n] || o == last;
      assert forall o :: o in delayed[..n] ==> o.orderId != last.orderId;
      forall f | f in front ensures f.orderId != last.orderId {
        assert Activated(c, token, book, delayed[..n], f);
      }
      OneEachJoins(front, if Matured(last, token, book.timestampMs)
                          then OneOrNone(TakerFill(c, book, last, book.timestampMs)) else []);
      var fills := ActivationFills(c, token, book, delayed);
      forall f | f in fills ensures Activated(c, token, book, delayed, f) {
        if f in front {
          assert Activated(c, token, book, delayed[..n], f);
          var o :| ActivatedBy(c, token, book, delayed[..n], f, o);
          assert ActivatedBy(c, token, book, delayed, f, o);
        } else {
          assert ActivatedBy(c, token, book, delayed, f, last);
        }
      }
    }
  }

  /** From agreement, the fills of an update are exactly what the ledger expects. */
  lemma UpdateExpected(c: Config, s: Exec, lax: bool, token: Token, book: OrderBook, visit: seq<string>)
    requires Agree(c, s, lax) && IsVisitOf(visit, s.engine, token, book)
    ensures Expected(s.ledger.orders, BookUpdated(c, s.engine, token, book, visit).pending)
  {
    hide MakerFill, TakerFill, Swept, SweepFills, ActivationFills;
    var now := book.timestampMs;
    var resting := UnexpiredResting(s.engine.resting, token, now);
    var delayed := UnexpiredDelayed(s.engine.delayed, token, now);
    O.UnexpiredStayDistinct(s.engine.delayed, token, now);
    ActivationMembers(c, token, book, delayed);
    SweepMembers(c, book, resting, visit);
    var a, m := ActivationFills(c, token, book, delayed), SweepFills(c, book, resting, visit);
    assert BookUpdated(c, s.engine, token, book, visit).pending == a + m;
    forall f | f in a
      ensures f.orderId !in s.engine.resting && f.orderId in s.ledger.orders
      ensures L.FillMatches(s.ledger.orders[f.orderId], LedgerFillOf(f))
    {
      assert Activated(c, token, book, delayed, f);
      var o :| ActivatedBy(c, token, book, delayed, f, o);
      TakerFillNames(c, book, o, now);
    }
    forall f | f in m
      ensures f.orderId in s.engine.resting && f.orderId in s.ledger.orders
      ensures L.FillMatches(s.ledger.orders[f.orderId], LedgerFillOf(f))
    {
      MakerFillNames(c, book, resting[f.orderId]);
    }
    OneEachJoins(a, m);
    assert forall f :: f in a + m <==> f in a || f in m;
  }

  /** Some open order expires at this book without also maturing: the engine drops it, the ledger keeps it. */
  ghost predicate DropsSilently(l: L.State, token: Token, now: Millis) {
    exists id :: id in l.orders && SilentDrop(l.orders[id], token, now)
  }

  predicate SilentDrop(t: L.Tracked, token: Token, now: Millis) {
    TokenOf(t.order.place) == token && Expired(t.order.place, now) && !IsMaturing(t, token, now)
  }

  // ----- book updates

  /** The fills of an update, by the order they belong to. */
  ghost predicate MakerPart(c: Config, e: Engine, book: OrderBook, visit: seq<string>, fills: seq<Fill>) {
    forall f: Fill :: f.orderId in e.resting ==>
      (f in fills <==> f.orderId in visit && MakerFill(c, book, e.resting[f.orderId]) == Some(f))
  }

  ghost predicate TakerPart(e: Engine, token: Token, book: OrderBook, fills: seq<Fill>) {
    forall f, o :: f in fills && o in e.delayed && o.orderId == f.orderId ==> Matured(o, token, book.timestampMs)
  }

  lemma UpdateParts(c: Config, s: Exec, lax: bool, token: Token, book: OrderBook, visit: seq<string>)
    requires Agree(c, s, lax) && IsVisitOf(visit, s.engine, token, book)
    ensures var fills := BookUpdated(c, s.engine, token, book, visit).pending;
      MakerPart(c, s.engine, book, visit, fills) && TakerPart(s.engine, token, book, fills)
  {
    hide MakerFill, TakerFill, Swept, SweepFills, ActivationFills, Matured, EngineInLedger, LedgerInEngine, PlacementsAnswered;
    var now := book.timestampMs;
    var resting := UnexpiredResting(s.engine.resting, token, now);
    var delayed := UnexpiredDelayed(s.engine.delayed, token, now);
    var a, m := ActivationFills(c, token, book, delayed), SweepFills(c, book, resting, visit);
    assert BookUpdated(c, s.engine, token, book, visit).pending == a + m;
    ActivatedParts(c, s.engine, token, book);
    SweepMembers(c, book, resting, visit);
    assert forall f :: f in a + m <==> f in a || f in m;
  }

  /** Activation fills belong to matured delayed orders only. */
  lemma ActivatedParts(c: Config, e: Engine, token: Token, book: OrderBook)
    requires EngineShape(e)
    ensures var fills := ActivationFills(c, token, book, UnexpiredDelayed(e.delayed, token, book.timestampMs));
      (forall f :: f in fills ==> f.orderId !in e.resting) && TakerPart(e, token, book, fills)
  {
    hide TakerFill, ActivationFills, Matured;
    var now := book.timestampMs;
    var delayed := UnexpiredDelayed(e.delayed, token, now);
    O.UnexpiredStayDistinct(e.delayed, token, now);
    ActivationMembers(c, token, book, delayed);
    forall f | f in ActivationFills(c, token, book, delayed)
      ensures f.orderId !in e.resting
      ensures forall o :: o in e.delayed && o.orderId == f.orderId ==> Matured(o, token, now)
    {
      assert Activated(c, token, book, delayed, f);
      var o :| ActivatedBy(c, token, book, delayed, f, o);
      SameDelayed(e, o);
    }
  }

  lemma SameDelayed(e: Engine, o: LiveOrder)
    requires O.DistinctIds(e.delayed) && o in e.delayed
    ensures forall p :: p in e.delayed && p.orderId == o.orderId ==> p == o
  {
  }

  lemma RestingAgrees(
    c: Config, s: Exec, lax: bool, token: Token, book: OrderBook, visit: seq<string>, fills: seq<Fill>,
    middle: map<string, L.Tracked>, id: string)
    requires Agree(c, s, lax) && IsVisitOf(visit, s.engine, token, book)
    requires MakerPart(c, s.engine, book, visit, fills) && RecordedOrders(s.ledger.orders, fills, middle)
    requires id in s.engine.resting && !Dropped(s.engine.resting[id], token, book.timestampMs)
    ensures match AfterSweep(c, token, book, s.engine.resting[id])
      case None => id !in middle
      case Some(o) => id in middle && Same(o, middle[id], L.Resting)
  {
    hide MakerQuantity, Touches, Agree;
    assert Same(s.engine.resting[id], s.ledger.orders[id], L.Resting) by { ShapeOf(c, s, lax, id); }
    var o := s.engine.resting[id];
    var fill := MakerFill(c, book, o);
    assert id in visit <==> Crossed(o, token, book);
    ShapeOf(c, s, lax, id);
    MakerFillNames(c, book, o);
    if id in visit && fill.Some? {
      assert fill.value in fills;
      assert At(middle, id) == L.Remainder(s.ledger.orders[id], fill.value.size);
    } else {
      assert !FillsOrder(fills, id);
      assert At(middle, id) == At(s.ledger.orders, id);
    }
  }

  lemma ShapeOf(c: Config, s: Exec, lax: bool, id: string)
    requires Agree(c, s, lax) && id in s.engine.resting
    ensures s.engine.resting[id].orderId == id && id in s.ledger.orders
    ensures Same(s.engine.resting[id], s.ledger.orders[id], L.Resting)
  {
  }

  lemma UpdateEngineInLedger(
    c: Config, s: Exec, lax: bool, token: Token, book: OrderBook, visit: seq<string>, maturing: seq<string>,
    fills: seq<Fill>, middle: map<string, L.Tracked>, l: L.State)
    requires Agree(c, s, lax) && Allowed(s, UpdateBook(token, book, visit, maturing))
    requires fills == BookUpdated(c, s.engine, token, book, visit).pending
    requires RecordedOrders(s.ledger.orders, fills, middle) && l.orders == middle - (set id | id in maturing)
    ensures EngineInLedger(BookUpdated(c, s.engine, token, book, visit), l)
  {
    hide AfterSweep, MakerFill, SweepFills, ActivationFills, Dropped, Matured, RecordedOrders, MakerPart, TakerPart, IsVisitOf;
    var e' := BookUpdated(c, s.engine, token, book, visit);
    UpdateParts(c, s, lax, token, book, visit);
    forall id | id in e'.resting ensures id in l.orders && Same(e'.resting[id], l.orders[id], L.Resting) {
      RestingAgrees(c, s, lax, token, book, visit, fills, middle, id);
      assert id !in maturing;
    }
    forall o | o in e'.delayed ensures o.orderId in l.orders && Same(o, l.orders[o.orderId], L.Delayed) {
      DelayedAgrees(c, s, lax, token, book, maturing, fills, middle, o);
    }
  }

  lemma DelayedAgrees(
    c: Config, s: Exec, lax: bool, token: Token, book: OrderBook, maturing: seq<string>, fills: seq<Fill>,
    middle: map<string, L.Tracked>, o: LiveOrder)
    requires Agree(c, s, lax) && IsMaturingList(maturing, s.ledger, token, book.timestampMs)
    requires TakerPart(s.engine, token, book, fills) && RecordedOrders(s.ledger.orders, fills, middle)
    requires o in s.engine.delayed
    ensures o.orderId in maturing <==> Matured(o, token, book.timestampMs)
    ensures !Matured(o, token, book.timestampMs) ==>
      o.orderId in middle && Same(o, middle[o.orderId], L.Delayed)
  {
    if !Matured(o, token, book.timestampMs) {
      assert !FillsOrder(fills, o.orderId);
      assert At(middle, o.orderId) == At(s.ledger.orders, o.orderId);
    }
  }

  lemma UpdateLedgerInEngine(
    c: Config, s: Exec, lax: bool, token: Token, book: OrderBook, visit: seq<string>, maturing: seq<string>,
    fills: seq<Fill>, middle: map<string, L.Tracked>, l: L.State)
    requires Agree(c, s, lax) && Allowed(s, UpdateBook(token, book, visit, maturing))
    requires fills == BookUpdated(c, s.engine, token, book, visit).pending
    requires RecordedOrders(s.ledger.orders, fills, middle) && l.orders == middle - (set id | id in maturing)
    requires lax || !DropsSilently(s.ledger, token, book.timestampMs)
    ensures LedgerInEngine(BookUpdated(c, s.engine, token, book, visit), l, lax)
    ensures l.orders.Keys <= s.ledger.orders.Keys
  {
    hide AfterSweep, MakerFill, SweepFills, ActivationFills, Matured, RecordedOrders, MakerPart, TakerPart, IsVisitOf, L.Remainder;
    var e' := BookUpdated(c, s.engine, token, book, visit);
    UpdateParts(c, s, lax, token, book, visit);
    forall id | id in l.orders
      ensures id in s.ledger.orders
      ensures match l.orders[id].state
        case Immediate => false
        case Resting => id in e'.resting || (lax && l.orders[id].order.place.tif.Gtd?)
        case Delayed => HasDelayed(e', id) || (lax && l.orders[id].order.place.tif.Gtd?)
    {
      UpdateExpected(c, s, lax, token, book, visit);
      StateKept(s.ledger.orders, fills, middle, id);
      if id in s.engine.resting {
        if !Dropped(s.engine.resting[id], token, book.timestampMs) {
          RestingAgrees(c, s, lax, token, book, visit, fills, middle, id);
        }
      } else if HasDelayed(s.engine, id) {
        var o :| o in s.engine.delayed && o.orderId == id;
        DelayedAgrees(c, s, lax, token, book, maturing, fills, middle, o);
        if !Dropped(o, token, book.timestampMs) {
          assert o in e'.delayed;
        }
      }
    }
  }

  lemma StateKept(before: map<string, L.Tracked>, fills: seq<Fill>, middle: map<string, L.Tracked>, id: string)
    requires RecordedOrders(before, fills, middle) && id in middle
    requires forall f :: f in fills ==> f.orderId in before
    ensures id in before && middle[id].state == before[id].state
    ensures middle[id].order.place.tif == before[id].order.place.tif
  {
    if FillsOrder(fills, id) {
      var f :| f in fills && f.orderId == id;
      assert At(middle, id) == L.Remainder(before[id], f.size);
    } else {
      assert At(middle, id) == At(before, id);
    }
  }

  lemma UpdateShape(c: Config, s: Exec, lax: bool, token: Token, book: OrderBook, visit: seq<string>)
    requires Agree(c, s, lax)
    ensures EngineShape(BookUpdated(c, s.engine, token, book, visit).(pending := []))
  {
    hide MakerFill, SweepFills, ActivationFills, Matured, Crossed, EngineInLedger, LedgerInEngine;
    var now := book.timestampMs;
    O.UnexpiredStayDistinct(s.engine.delayed, token, now);
    O.DelayedStayDistinct(UnexpiredDelayed(s.engine.delayed, token, now), token, now);
  }

  /** An update keeps agreement, or stops on a fill the accounting refuses. */
  lemma UpdateAgrees(
    c: Config, s: Exec, lax: bool, token: Token, book: OrderBook, visit: seq<string>, maturing: seq<string>)
    requires Agree(c, s, lax) && Allowed(s, UpdateBook(token, book, visit, maturing))
    requires lax || !DropsSilently(s.ledger, token, book.timestampMs)
    ensures var (s', r) := BookUpdatedIn(c, s, token, book, visit, maturing);
      (r.Faulted? ==> r.error.AccountingFailed?) && (!r.Faulted? ==> Agree(c, s', lax))
  {
    hide BookUpdated, RecordAll, CancelEach, EngineShape, EngineInLedger, LedgerInEngine, RecordedOrders, Expected, IsVisitOf;
    var engine := BookUpdated(c, s.engine, token, book, visit);
    var fills := engine.pending;
    UpdateExpected(c, s, lax, token, book, visit);
    RecordAllEffect(s.ledger, fills);
    var (recorded, v) := RecordAll(s.ledger, fills);
    if v.Ok? {
      CancelEachEffect(recorded, maturing, book.timestampMs);
      var closed := CancelEach(recorded, maturing, book.timestampMs).0;
      UpdateEngineInLedger(c, s, lax, token, book, visit, maturing, fills, recorded.orders, closed);
      UpdateLedgerInEngine(c, s, lax, token, book, visit, maturing, fills, recorded.orders, closed);
      UpdateShape(c, s, lax, token, book, visit);
      PendingIsIrrelevant(engine, closed, lax);
      assert engine.nextId == s.engine.nextId by { UpdateMintsNothing(c, s.engine, token, book, visit); }
    }
  }

  lemma UpdateMintsNothing(c: Config, e: Engine, token: Token, book: OrderBook, visit: seq<string>)
    ensures BookUpdated(c, e, token, book, visit).nextId == e.nextId
  {
  }

  lemma PendingIsIrrelevant(e: Engine, l: L.State, lax: bool)
    ensures EngineInLedger(e, l) ==> EngineInLedger(e.(pending := []), l)
    ensures LedgerInEngine(e, l, lax) ==> LedgerInEngine(e.(pending := []), l, lax)
  {
    if LedgerInEngine(e, l, lax) {
      forall id | id in l.orders && HasDelayed(e, id) ensures HasDelayed(e.(pending := []), id) {
        var o :| o in e.delayed && o.orderId == id;
        assert o in e.(pending := []).delayed;
      }
    }
  }

  // ----- submissions

  lemma PlacedEffect(l: L.State, order: PlaceOrder, strategy: Option<string>, now: Millis)
    requires PlacementsAnswered(l)
    ensures var (m, v) := Placed(l, order, strategy, now);
      v.Ok? && m.orders == l.orders && m.nextOrderId == l.nextOrderId + 1 && m.nextSequence == l.nextSequence + 1 &&
      m.idPrefix == l.idPrefix &&
      m.placements == l.placements[L.EventId(l.nextSequence) :=
        L.Placement(L.RecordedOrder(order, strategy), Numbered(l.idPrefix, l.nextOrderId), None)]
  {
    assert L.EventId(l.nextSequence) !in l.placements;
  }

  /** Answering a placement with the id it expects always succeeds and answers it. */
  lemma AnsweredEffect(
    c: Config, l: L.State, order: PlaceOrder, strategy: Option<string>, id: Option<string>, now: Millis)
    requires PlacementsAnswered(l)
    requires var expected := Numbered(l.idPrefix, l.nextOrderId); id in {None, Some(expected)}
    ensures var placed := Placed(l, order, strategy, now).0;
      var (m, v) := Answered(c, placed, L.EventId(l.nextSequence), Numbered(l.idPrefix, l.nextOrderId), id, order, now);
      v.Ok? && PlacementsAnswered(m) && m.nextOrderId == l.nextOrderId + 1 && m.idPrefix == l.idPrefix &&
      m.orders == if id.None? then l.orders else l.orders[id.value := L.Tracked(
        L.RecordedOrder(order, strategy), StateFor(c, order), now, SaturatingAdd(now, c.latencyMs))]
  {
    hide Placed;
    PlacedEffect(l, order, strategy, now);
    var placed := Placed(l, order, strategy, now).0;
    var placementId := L.EventId(l.nextSequence);
    var m := Answered(c, placed, placementId, Numbered(l.idPrefix, l.nextOrderId), id, order, now).0;
    assert m.nextSequence == l.nextSequence + 2;
    forall k: nat | k >= m.nextSequence ensures L.EventId(k) !in m.placements {
      NumberedInjective("paper-ledger", k, l.nextSequence);
      assert L.EventId(k) !in l.placements;
    }
  }

  lemma FreshId(c: Config, s: Exec, lax: bool)
    requires Agree(c, s, lax)
    ensures var id := Numbered(c.idPrefix, s.ledger.nextOrderId);
      id !in s.ledger.orders && id !in s.engine.resting && (forall o :: o in s.engine.delayed ==> o.orderId != id) &&
      forall k: nat :: k >= s.ledger.nextOrderId + 1 ==> Numbered(c.idPrefix, k) != id
  {
    forall k: nat | k >= s.ledger.nextOrderId + 1
      ensures Numbered(c.idPrefix, k) != Numbered(c.idPrefix, s.ledger.nextOrderId)
    {
      NumberedInjective(c.idPrefix, k, s.ledger.nextOrderId);
    }
  }

  /** The engine's side of a submission that is not already expired. */
  lemma SubmittedEffect(c: Config, e: Engine, order: PlaceOrder, strategy: Option<string>, now: Millis)
    requires !Expired(order, now) && !c.violatesLimits(order)
    ensures var (m, id) := Submitted(c, e, order, strategy, now);
      var o := NewOrder(c, e, order, strategy, now);
      m.nextId == e.nextId + 1 && id in {None, Some(o.orderId)} &&
      (id.None? ==> m == e.(nextId := e.nextId + 1)) &&
      (id.Some? ==> match StateFor(c, order)
        case Resting => m == e.(nextId := e.nextId + 1, resting := e.resting[o.orderId := o])
        case Delayed => m == e.(nextId := e.nextId + 1, delayed := e.delayed + [o])
        case Immediate => exists f :: m == e.(nextId := e.nextId + 1, pending := e.pending + [f]) && Names(f, o))
  {
    hide TakerFill;
    var token := TokenOf(order);
    if token in e.books && !order.postOnly && c.latencyMs <= 0 {
      var o := NewOrder(c, e, order, strategy, now);
      TakerFillNames(c, e.books[token], o, now);
    }
  }

  lemma AddResting(c: Config, s: Exec, lax: bool, o: LiveOrder, l: L.State)
    requires Agree(c, s, lax) && o.orderId == Numbered(c.idPrefix, s.ledger.nextOrderId)
    requires l.orders == s.ledger.orders[o.orderId := L.Tracked(
      L.RecordedOrder(o.order, o.strategy), L.Resting, o.submittedMs, o.activeAtMs)]
    ensures var e := s.engine.(nextId := s.engine.nextId + 1, resting := s.engine.resting[o.orderId := o]);
      EngineShape(e) && EngineInLedger(e, l) && LedgerInEngine(e, l, lax)
  {
    FreshId(c, s, lax);
    var e := s.engine.(nextId := s.engine.nextId + 1, resting := s.engine.resting[o.orderId := o]);
    assert forall id :: HasDelayed(s.engine, id) ==> HasDelayed(e, id);
  }

  lemma AddDelayed(c: Config, s: Exec, lax: bool, o: LiveOrder, l: L.State)
    requires Agree(c, s, lax) && o.orderId == Numbered(c.idPrefix, s.ledger.nextOrderId)
    requires l.orders == s.ledger.orders[o.orderId := L.Tracked(
      L.RecordedOrder(o.order, o.strategy), L.Delayed, o.submittedMs, o.activeAtMs)]
    ensures var e := s.engine.(nextId := s.engine.nextId + 1, delayed := s.engine.delayed + [o]);
      EngineShape(e) && EngineInLedger(e, l) && LedgerInEngine(e, l, lax)
  {
    FreshId(c, s, lax);
    hide EngineShape, EngineInLedger, LedgerInEngine, SameCounter, PlacementsAnswered;
    var e := s.engine.(nextId := s.engine.nextId + 1, delayed := s.engine.delayed + [o]);
    ShapeWithOne(s.engine, e, o);
    KnownWithOne(s.engine, e, s.ledger, l, o);
    WithOne(s.engine, e, s.ledger, l, lax, o);
  }

  lemma ShapeWithOne(e: Engine, f: Engine, o: LiveOrder)
    requires EngineShape(e) && f.pending == [] && f.resting == e.resting && f.delayed == e.delayed + [o]
    requires o.orderId !in e.resting && forall p :: p in e.delayed ==> p.orderId != o.orderId
    ensures EngineShape(f)
  {
    OneMoreDelayed(e.delayed, o);
    hide O.DistinctIds;
  }

  lemma KnownWithOne(e: Engine, f: Engine, l: L.State, m: L.State, o: LiveOrder)
    requires EngineInLedger(e, l) && f.resting == e.resting && f.delayed == e.delayed + [o]
    requires o.orderId !in l.orders && o.orderId in m.orders && Same(o, m.orders[o.orderId], L.Delayed)
    requires forall id :: id in l.orders ==> id in m.orders && m.orders[id] == l.orders[id]
    ensures EngineInLedger(f, m)
  {
    hide Same;
  }

  /** Both sides with one delayed order more: what the ledger has open the engine has too. */
  lemma WithOne(e: Engine, f: Engine, l: L.State, m: L.State, lax: bool, o: LiveOrder)
    requires LedgerInEngine(e, l, lax) && f.resting == e.resting && f.delayed == e.delayed + [o]
    requires m.orders.Keys == l.orders.Keys + {o.orderId} && m.orders[o.orderId].state == L.Delayed
    requires forall id :: id in l.orders && id != o.orderId ==> m.orders[id] == l.orders[id]
    ensures LedgerInEngine(f, m, lax)
  {
    assert o in f.delayed;
    forall id | HasDelayed(e, id) ensures HasDelayed(f, id) {
      var p :| p in e.delayed && p.orderId == id;
      assert p in f.delayed;
    }
  }

  lemma OneMoreDelayed(delayed: seq<LiveOrder>, o: LiveOrder)
    requires O.DistinctIds(delayed) && forall p :: p in delayed ==> p.orderId != o.orderId
    ensures O.DistinctIds(delayed + [o])
  {
    assert forall i :: 0 <= i < |delayed| ==> delayed[i] in delayed;
  }

  lemma KeepOrders(c: Config, s: Exec, lax: bool, l: L.State)
    requires Agree(c, s, lax) && l.orders == s.ledger.orders
    ensures var e := s.engine.(nextId := s.engine.nextId + 1);
      EngineShape(e) && EngineInLedger(e, l) && LedgerInEngine(e, l, lax)
  {
    var e := s.engine.(nextId := s.engine.nextId + 1);
    assert forall id :: HasDelayed(s.engine, id) ==> HasDelayed(e, id);
  }

  lemma CounterAdvances(c: Config, s: Exec, lax: bool, t: Exec)
    requires Agree(c, s, lax)
    requires t.ledger.idPrefix == s.ledger.idPrefix && t.engine.nextId == t.ledger.nextOrderId == s.ledger.nextOrderId + 1
    requires t.ledger.orders.Keys <= s.ledger.orders.Keys + {Numbered(c.idPrefix, s.ledger.nextOrderId)}
    ensures SameCounter(c, t)
  {
    FreshId(c, s, lax);
  }

  /** An immediate order is opened by its acknowledgement and closed by its one fill. */
  lemma ImmediateCloses(c: Config, s: Exec, lax: bool, l: L.State, o: LiveOrder, f: Fill)
    requires Agree(c, s, lax) && o.orderId == Numbered(c.idPrefix, s.ledger.nextOrderId) && Names(f, o)
    requires l.orders == s.ledger.orders[o.orderId := L.Tracked(
      L.RecordedOrder(o.order, o.strategy), L.Immediate, o.submittedMs, o.activeAtMs)]
    ensures var (m, v) := RecordAll(l, [f]);
      (v.Err? ==> v.error.AccountingFailed?) && (v.Ok? ==> SameBut(l, m) && m.orders == s.ledger.orders)
  {
    hide RecordOne;
    FreshId(c, s, lax);
    assert [f][..0] == [];
    RecordOneEffect(l, f);
    assert l.orders - {o.orderId} == s.ledger.orders;
  }

  lemma SubmitAgrees(c: Config, s: Exec, lax: bool, order: PlaceOrder, strategy: Option<string>, now: Millis)
    requires Agree(c, s, lax) && !Expired(order, now)
    ensures var (s', r) := SubmittedTo(c, s, order, strategy, now);
      (r.Faulted? ==> r.error.AccountingFailed?) && (!r.Faulted? ==> Agree(c, s', lax))
  {
    hide Submitted, Answered, Placed, RecordAll, EngineShape, EngineInLedger, LedgerInEngine, L.AvailableCash, PlacementsAnswered;
    if !c.violatesLimits(order) && !Unaffordable(s.ledger, order) {
      var o := NewOrder(c, s.engine, order, strategy, now);
      var (engine, id) := Submitted(c, s.engine, order, strategy, now);
      SubmittedEffect(c, s.engine, order, strategy, now);
      PlacedEffect(s.ledger, order, strategy, now);
      AnsweredEffect(c, s.ledger, order, strategy, id, now);
      var placed := Placed(s.ledger, order, strategy, now).0;
      var answered := Answered(c, placed, L.EventId(s.ledger.nextSequence),
                               Numbered(s.ledger.idPrefix, s.ledger.nextOrderId), id, order, now).0;
      NoPending(c, s, lax);
      if id.None? {
        KeepOrders(c, s, lax, answered);
        NothingToRecord(answered);
        CounterAdvances(c, s, lax, Exec(engine, answered, now));
      } else {
        match StateFor(c, order) {
          case Resting =>
            AddResting(c, s, lax, o, answered);
            NothingToRecord(answered);
            CounterAdvances(c, s, lax, Exec(engine, answered, now));
          case Delayed =>
            AddDelayed(c, s, lax, o, answered);
            NothingToRecord(answered);
            CounterAdvances(c, s, lax, Exec(engine, answered, now));
          case Immediate =>
            var f :| engine == s.engine.(nextId := s.engine.nextId + 1, pending := s.engine.pending + [f]) && Names(f, o);
            assert s.engine.pending + [f] == [f];
            ImmediateCloses(c, s, lax, answered, o, f);
            var recorded := RecordAll(answered, [f]).0;
            if RecordAll(answered, [f]).1.Ok? {
              KeepOrders(c, s, lax, recorded);
              CounterAdvances(c, s, lax, Exec(engine, recorded, now));
              AnsweredStay(answered, recorded);
              assert engine.(pending := []) == s.engine.(nextId := s.engine.nextId + 1);
            }
        }
      }
    }
  }

  lemma NoPending(c: Config, s: Exec, lax: bool)
    requires Agree(c, s, lax)
    ensures s.engine.pending == [] && PlacementsAnswered(s.ledger)
  {
  }

  lemma NothingToRecord(l: L.State)
    ensures RecordAll(l, []) == (l, L.Ok)
  {
  }

  lemma AnsweredStay(l: L.State, m: L.State)
    requires PlacementsAnswered(l) && SameBut(l, m)
    ensures PlacementsAnswered(m)
  {
  }

  /** A submission keeps the two id counters equal exactly when it is refused up front or not yet expired. */
  lemma CountersStayEqualIff(c: Config, s: Exec, lax: bool, order: PlaceOrder, strategy: Option<string>, now: Millis)
    requires Agree(c, s, lax)
    ensures var (s', r) := SubmittedTo(c, s, order, strategy, now);
      !r.Faulted? ==>
        (SameCounter(c, s') <==> c.violatesLimits(order) || Unaffordable(s.ledger, order) || !Expired(order, now))
  {
    hide Answered, Placed, RecordAll, EngineShape, EngineInLedger, LedgerInEngine, L.AvailableCash, PlacementsAnswered;
    if !Expired(order, now) {
      SubmitAgrees(c, s, lax, order, strategy, now);
    } else if !c.violatesLimits(order) && !Unaffordable(s.ledger, order) {
      NoPending(c, s, lax);
      PlacedEffect(s.ledger, order, strategy, now);
      AnsweredEffect(c, s.ledger, order, strategy, None, now);
      var answered := Answered(c, Placed(s.ledger, order, strategy, now).0, L.EventId(s.ledger.nextSequence),
                               Numbered(s.ledger.idPrefix, s.ledger.nextOrderId), None, order, now).0;
      NothingToRecord(answered);
    }
  }

  // ----- settlements and cancellations

  lemma SettleAgrees(c: Config, s: Exec, lax: bool, op: Op)
    requires Agree(c, s, lax) && op.Settle?
    ensures var (s', r) := Step(c, s, op); !r.Faulted? ==> Agree(c, s', lax)
  {
    hide A.Settled, A.Held, EngineShape;
    var (s', r) := SettledIn(s, op.market, op.outcome, op.size, op.proceeds, op.now);
    if r.Done? {
      assert s'.ledger.orders == s.ledger.orders && SameBut(s.ledger, s'.ledger);
    }
  }

  /** Cancelling takes one id out of the engine, wherever it was. */
  lemma CancelledEffect(e: Engine, id: string)
    requires EngineShape(e) && Cancelled(e, id).1
    ensures var m := Cancelled(e, id).0;
      EngineShape(m) && m.nextId == e.nextId && m.resting == e.resting - {id} &&
      forall o :: o in m.delayed <==> o in e.delayed && o.orderId != id
  {
    var i, m := PositionOf(e.delayed, id), Cancelled(e, id).0;
    if id in e.resting {
      assert m.delayed == e.delayed;
    } else {
      assert e.resting - {id} == e.resting;
      X.DelayedWithout(e.delayed, i);
    }
  }

  lemma CancelAgrees(c: Config, s: Exec, lax: bool, id: string)
    requires Agree(c, s, lax)
    ensures var (s', r) := CancelledIn(s, id); r.Done? && Agree(c, s', lax)
  {
    hide Cancelled, CancelOne, EngineShape, EngineInLedger, LedgerInEngine;
    CancelEffect(s.ledger, id, s.lastMs);
    if Cancelled(s.engine, id).1 {
      CancelledEffect(s.engine, id);
      WithoutOne(s.engine, Cancelled(s.engine, id).0, s.ledger, CancelOne(s.ledger, id, s.lastMs).0, lax, id);
    }
  }

  /** Both sides without one id describe the same orders still. */
  lemma WithoutOne(e: Engine, f: Engine, l: L.State, m: L.State, lax: bool, id: string)
    requires EngineInLedger(e, l) && LedgerInEngine(e, l, lax)
    requires f.resting == e.resting - {id} && forall o :: o in f.delayed <==> o in e.delayed && o.orderId != id
    requires m.orders == l.orders - {id}
    ensures EngineInLedger(f, m) && LedgerInEngine(f, m, lax)
  {
    forall x | x != id && HasDelayed(e, x) ensures HasDelayed(f, x) {
      var o :| o in e.delayed && o.orderId == x;
      assert o in f.delayed;
    }
  }

  lemma CancelEffect(l: L.State, id: string, now: Millis)
    ensures var (m, v) := CancelOne(l, id, now);
      v.Ok? && SameBut(l, m) && m.orders == l.orders - {id}
  {
    if id !in l.orders {
      assert l.orders - {id} == l.orders;
    }
  }

  lemma CancelAllAgrees(c: Config, s: Exec, lax: bool, ids: seq<string>)
    requires Agree(c, s, lax) && Allowed(s, CancelAll(ids))
    ensures var (s', r) := AllCancelledIn(s, ids); r.Done? && Agree(c, s', lax)
  {
    hide CancelEach;
    CancelEachEffect(s.ledger, ids, s.lastMs);
    var l := CancelEach(s.ledger, ids, s.lastMs).0;
    forall id | id in l.orders
      ensures l.orders[id].state != L.Immediate && lax && l.orders[id].order.place.tif.Gtd?
    {
      assert id !in OpenIds(s.engine);
    }
  }

  // ----- who placed an order

  ghost predicate SameOwner(o: LiveOrder, orders: map<string, L.Tracked>) {
    o.orderId in orders ==> orders[o.orderId].order.strategy == o.strategy
  }

  /** Orders open on both sides carry the same strategy. */
  ghost predicate Attributed(e: Engine, orders: map<string, L.Tracked>) {
    (forall id :: id in e.resting ==> SameOwner(e.resting[id], orders)) &&
    (forall o :: o in e.delayed ==> SameOwner(o, orders))
  }

  /** Orders that stay keep their strategy. */
  ghost predicate KeepsOwners(before: map<string, L.Tracked>, after: map<string, L.Tracked>) {
    forall id :: id in after ==> id in before && after[id].order.strategy == before[id].order.strategy
  }

  lemma RecordingKeepsOwners(before: map<string, L.Tracked>, fills: seq<Fill>, after: map<string, L.Tracked>)
    requires Expected(before, fills) && RecordedOrders(before, fills, after)
    ensures KeepsOwners(before, after)
  {
    hide L.FillMatches;
    forall id | id in after ensures id in before && after[id].order.strategy == before[id].order.strategy {
      if FillsOrder(fills, id) {
        var f :| f in fills && f.orderId == id;
        assert At(after, id) == L.Remainder(before[id], f.size);
      } else {
        assert At(after, id) == At(before, id);
      }
    }
  }

  lemma FewerStayAttributed(e: Engine, f: Engine, before: map<string, L.Tracked>, after: map<string, L.Tracked>)
    requires Attributed(e, before) && KeepsOwners(before, after)
    requires forall id :: id in f.resting ==>
      id in e.resting && f.resting[id].strategy == e.resting[id].strategy && f.resting[id].orderId == e.resting[id].orderId
    requires forall o :: o in f.delayed ==> o in e.delayed
    ensures Attributed(f, after)
  {
    forall id | id in f.resting ensures SameOwner(f.resting[id], after) {
      assert SameOwner(e.resting[id], before);
    }
    forall o | o in f.delayed ensures SameOwner(o, after) {
      assert SameOwner(o, before);
    }
  }

  lemma UpdateStaysAttributed(
    c: Config, s: Exec, lax: bool, token: Token, book: OrderBook, visit: seq<string>, maturing: seq<string>)
    requires Agree(c, s, lax) && Attributed(s.engine, s.ledger.orders) && IsVisitOf(visit, s.engine, token, book)
    requires !BookUpdatedIn(c, s, token, book, visit, maturing).1.Faulted?
    ensures var t := BookUpdatedIn(c, s, token, book, visit, maturing).0; Attributed(t.engine, t.ledger.orders)
  {
    hide RecordAll, CancelEach, Agree, Attributed, Expected, SweepFills, ActivationFills, IsVisitOf, MakerFill;
    var fills := BookUpdated(c, s.engine, token, book, visit).pending;
    UpdateExpected(c, s, lax, token, book, visit);
    RecordAllEffect(s.ledger, fills);
    var recorded := RecordAll(s.ledger, fills).0;
    RecordingKeepsOwners(s.ledger.orders, fills, recorded.orders);
    CancelEachEffect(recorded, maturing, book.timestampMs);
    var t := BookUpdatedIn(c, s, token, book, visit, maturing).0;
    FewerStayAttributed(s.engine, t.engine, s.ledger.orders, t.ledger.orders);
  }

  lemma SubmitStaysAttributed(c: Config, s: Exec, lax: bool, order: PlaceOrder, strategy: Option<string>, now: Millis)
    requires Agree(c, s, lax) && Attributed(s.engine, s.ledger.orders) && !Expired(order, now)
    requires !SubmittedTo(c, s, order, strategy, now).1.Faulted?
    ensures var t := SubmittedTo(c, s, order, strategy, now).0; Attributed(t.engine, t.ledger.orders)
  {
    hide Submitted, Answered, Placed, RecordAll, EngineShape, EngineInLedger, LedgerInEngine, Unaffordable, PlacementsAnswered;
    if !c.violatesLimits(order) && !Unaffordable(s.ledger, order) {
      var o := NewOrder(c, s.engine, order, strategy, now);
      var (engine, id) := Submitted(c, s.engine, order, strategy, now);
      SubmittedEffect(c, s.engine, order, strategy, now);
      PlacedEffect(s.ledger, order, strategy, now);
      AnsweredEffect(c, s.ledger, order, strategy, id, now);
      var answered := Answered(c, Placed(s.ledger, order, strategy, now).0, L.EventId(s.ledger.nextSequence),
                               Numbered(s.ledger.idPrefix, s.ledger.nextOrderId), id, order, now).0;
      NoPending(c, s, lax);
      FreshId(c, s, lax);
      NothingToRecord(answered);
      if id.Some? && StateFor(c, order) != L.Immediate {
        AddedStaysAttributed(c, s, lax, engine, o, answered.orders[o.orderId]);
      } else if id.Some? {
        var f :| engine == s.engine.(nextId := s.engine.nextId + 1, pending := s.engine.pending + [f]) && Names(f, o);
        assert s.engine.pending + [f] == [f];
        assert engine.pending == [f] && engine.resting == s.engine.resting && engine.delayed == s.engine.delayed;
        ImmediateCloses(c, s, lax, answered, o, f);
        assert RecordAll(answered, [f]).0.orders == s.ledger.orders;
      }
    }
  }

  lemma AddedStaysAttributed(c: Config, s: Exec, lax: bool, f: Engine, o: LiveOrder, t: L.Tracked)
    requires Agree(c, s, lax) && Attributed(s.engine, s.ledger.orders)
    requires o.orderId == Numbered(c.idPrefix, s.ledger.nextOrderId) && t.order.strategy == o.strategy
    requires (f.resting == s.engine.resting && f.delayed == s.engine.delayed + [o]) ||
      (f.resting == s.engine.resting[o.orderId := o] && f.delayed == s.engine.delayed)
    ensures Attributed(f, s.ledger.orders[o.orderId := t])
  {
    hide LedgerInEngine, PlacementsAnswered;
    FreshId(c, s, lax);
    var e, orders := s.engine, s.ledger.orders[o.orderId := t];
    forall id | id in e.resting && id != o.orderId ensures SameOwner(e.resting[id], orders) {
      assert SameOwner(e.resting[id], s.ledger.orders);
    }
    forall p | p in e.delayed ensures SameOwner(p, orders) {
      assert SameOwner(p, s.ledger.orders);
    }
  }

  lemma StepStaysAttributed(c: Config, s: Exec, lax: bool, op: Op)
    requires Agree(c, s, lax) && Attributed(s.engine, s.ledger.orders) && Allowed(s, op) && Timely(op)
    requires !Step(c, s, op).1.Faulted?
    ensures var t := Step(c, s, op).0; Attributed(t.engine, t.ledger.orders)
  {
    hide SubmittedTo, BookUpdatedIn, Agree, Attributed, CancelOne, CancelEach, L.Append;
    match op {
      case Submit(order, strategy, now) => SubmitStaysAttributed(c, s, lax, order, strategy, now);
      case UpdateBook(token, book, visit, maturing) => UpdateStaysAttributed(c, s, lax, token, book, visit, maturing);
      case Settle(market, outcome, size, proceeds, now) =>
        SettleLeavesOrders(s.ledger, now, market, outcome, size, proceeds);
        FewerStayAttributed(s.engine, s.engine, s.ledger.orders, Step(c, s, op).0.ledger.orders);
      case Cancel(id) =>
        CancelEffect(s.ledger, id, s.lastMs);
        CancelThinsOut(s.engine, id);
        FewerStayAttributed(s.engine, Step(c, s, op).0.engine, s.ledger.orders, Step(c, s, op).0.ledger.orders);
      case CancelAll(ids) =>
        CancelEachEffect(s.ledger, ids, s.lastMs);
        FewerStayAttributed(s.engine, Step(c, s, op).0.engine, s.ledger.orders, Step(c, s, op).0.ledger.orders);
    }
  }

  lemma SettleLeavesOrders(l: L.State, now: Millis, market: string, outcome: Outcome, size: real, proceeds: real)
    ensures L.Append(l, now, L.Settlement(market, outcome, size, proceeds)).0.orders == l.orders
  {
    hide A.Settled, A.Held;
  }

  lemma CancelThinsOut(e: Engine, id: string)
    ensures var f := Cancelled(e, id).0;
      && (forall x :: x in f.resting ==> x in e.resting && f.resting[x] == e.resting[x])
      && (forall o :: o in f.delayed ==> o in e.delayed)
  {
  }

  // ----- runs

  /** A submission that is not already past its expiry. */
  predicate Timely(op: Op) {
    op.Submit? ==> !Expired(op.order, op.now)
  }

  ghost predicate DropsAny(s: Exec, op: Op) {
    op.UpdateBook? && DropsSilently(s.ledger, op.token, op.book.timestampMs)
  }

  lemma StepAgrees(c: Config, s: Exec, lax: bool, op: Op)
    requires Agree(c, s, lax) && Allowed(s, op) && Timely(op) && (lax || !DropsAny(s, op))
    ensures var (s', r) := Step(c, s, op);
      (!r.Faulted? ==> Agree(c, s', lax)) && (r.Faulted? && !op.Settle? ==> r.error.AccountingFailed?)
  {
    match op {
      case Submit(order, strategy, now) => SubmitAgrees(c, s, lax, order, strategy, now);
      case UpdateBook(token, book, visit, maturing) => UpdateAgrees(c, s, lax, token, book, visit, maturing);
      case Settle(_, _, _, _, _) => SettleAgrees(c, s, lax, op);
      case Cancel(id) => CancelAgrees(c, s, lax, id);
      case CancelAll(ids) => CancelAllAgrees(c, s, lax, ids);
    }
  }

  /**
   * In every run of timely orders whose ledger calls succeed, the engine's open orders are open in
   * the ledger with the same terms, remainders and owners, both mint the same next id, every placement is
   * answered and no immediate order is left open. While no update drops an order silently, the
   * ledger's open orders are also open in the engine.
   */
  lemma {:induction false} EngineAndLedgerAgree(
    c: Config, initialCash: real, states: seq<Exec>, ops: seq<Op>, n: nat, lax: bool)
    requires IsRun(c, initialCash, states, ops) && n <= |ops|
    requires forall i :: 0 <= i < n ==> Timely(ops[i]) && !Step(c, states[i], ops[i]).1.Faulted?
    requires lax || forall i :: 0 <= i < n ==> !DropsAny(states[i], ops[i])
    ensures Agree(c, states[n], lax) && L.AtRest(states[n].ledger)
    ensures Attributed(states[n].engine, states[n].ledger.orders)
    decreases n
  {
    hide Step;
    if n > 0 {
      EngineAndLedgerAgree(c, initialCash, states, ops, n - 1, lax);
      StepAgrees(c, states[n - 1], lax, ops[n - 1]);
      StepStaysAttributed(c, states[n - 1], lax, ops[n - 1]);
    }
  }

  /** Strict agreement after an update holds exactly when the update drops no order silently. */
  lemma UpdateStaysExactIff(
    c: Config, s: Exec, token: Token, book: OrderBook, visit: seq<string>, maturing: seq<string>)
    requires Agree(c, s, false) && Allowed(s, UpdateBook(token, book, visit, maturing))
    requires !BookUpdatedIn(c, s, token, book, visit, maturing).1.Faulted?
    ensures Agree(c, BookUpdatedIn(c, s, token, book, visit, maturing).0, false)
      <==> !DropsSilently(s.ledger, token, book.timestampMs)
  {
    hide BookUpdated, RecordAll, CancelEach, EngineShape, EngineInLedger, LedgerInEngine, RecordedOrders, Expected, IsVisitOf;
    if !DropsSilently(s.ledger, token, book.timestampMs) {
      UpdateAgrees(c, s, false, token, book, visit, maturing);
    } else {
      var engine := BookUpdated(c, s.engine, token, book, visit);
      UpdateExpected(c, s, false, token, book, visit);
      RecordAllEffect(s.ledger, engine.pending);
      var recorded := RecordAll(s.ledger, engine.pending).0;
      CancelEachEffect(recorded, maturing, book.timestampMs);
      var id :| id in s.ledger.orders && SilentDrop(s.ledger.orders[id], token, book.timestampMs);
      DroppedStaysInLedger(c, s, token, book, visit, maturing, recorded.orders, id);
      var l := BookUpdatedIn(c, s, token, book, visit, maturing).0.ledger;
      NotInEngine(engine.(pending := []), l, id);
    }
  }

  lemma NotInEngine(e: Engine, l: L.State, id: string)
    requires id in l.orders && id !in e.resting && !HasDelayed(e, id)
    ensures !LedgerInEngine(e, l, false)
  {
  }

  lemma DroppedStaysInLedger(
    c: Config, s: Exec, token: Token, book: OrderBook, visit: seq<string>, maturing: seq<string>,
    middle: map<string, L.Tracked>, id: string)
    requires Agree(c, s, false) && Allowed(s, UpdateBook(token, book, visit, maturing))
    requires RecordedOrders(s.ledger.orders, BookUpdated(c, s.engine, token, book, visit).pending, middle)
    requires id in s.ledger.orders && SilentDrop(s.ledger.orders[id], token, book.timestampMs)
    ensures id in middle && id !in maturing
    ensures var e := BookUpdated(c, s.engine, token, book, visit).(pending := []);
      id !in e.resting && !HasDelayed(e, id)
  {
    hide AfterSweep, MakerFill, SweepFills, ActivationFills;
    var fills := BookUpdated(c, s.engine, token, book, visit).pending;
    UpdateParts(c, s, false, token, book, visit);
    if id in s.engine.resting {
      assert id !in visit;
      assert !FillsOrder(fills, id);
      assert forall o :: o in s.engine.delayed ==> o.orderId != id;
    } else {
      assert HasDelayed(s.engine, id);
      var o :| o in s.engine.delayed && o.orderId == id;
      SameDelayed(s.engine, o);
      DelayedAgrees(c, s, false, token, book, maturing, fills, middle, o);
    }
    assert At(middle, id) == At(s.ledger.orders, id);
  }

  // ----- good-til-cancelled runs

  ghost predicate AllGtc(e: Engine) {
    (forall id :: id in e.resting ==> e.resting[id].order.tif.Gtc?) &&
    (forall o :: o in e.delayed ==> o.order.tif.Gtc?)
  }

  lemma UpdateKeepsGtc(c: Config, e: Engine, token: Token, book: OrderBook, visit: seq<string>)
    requires AllGtc(e)
    ensures AllGtc(BookUpdated(c, e, token, book, visit))
  {
    hide MakerFill, Crossed, Matured, Dropped, SweepFills, ActivationFills;
  }

  lemma SubmitKeepsGtc(c: Config, e: Engine, order: PlaceOrder, strategy: Option<string>, now: Millis)
    requires AllGtc(e) && order.tif.Gtc?
    ensures AllGtc(Submitted(c, e, order, strategy, now).0)
  {
    hide TakerFill, Touches;
  }

  lemma StepKeepsGtc(c: Config, s: Exec, op: Op)
    requires AllGtc(s.engine) && (op.Submit? ==> op.order.tif.Gtc?)
    ensures AllGtc(Step(c, s, op).0.engine)
  {
    hide L.Append, RecordAll, CancelEach, CancelOne, Answered, Placed, Submitted, BookUpdated, Unaffordable;
    match op {
      case Submit(order, strategy, now) => SubmitKeepsGtc(c, s.engine, order, strategy, now);
      case UpdateBook(token, book, visit, _) => UpdateKeepsGtc(c, s.engine, token, book, visit);
      case _ =>
    }
  }

  lemma GtcNeverDrops(c: Config, s: Exec, op: Op)
    requires Agree(c, s, false) && AllGtc(s.engine)
    ensures !DropsAny(s, op)
  {
  }

  /** With good-til-cancelled orders only, the two sides agree exactly throughout. */
  lemma {:induction false} GtcRunsAgreeExactly(c: Config, initialCash: real, states: seq<Exec>, ops: seq<Op>, n: nat)
    requires IsRun(c, initialCash, states, ops) && n <= |ops|
    requires forall i :: 0 <= i < n ==>
      (ops[i].Submit? ==> ops[i].order.tif.Gtc?) && !Step(c, states[i], ops[i]).1.Faulted?
    ensures Agree(c, states[n], false) && AllGtc(states[n].engine)
    decreases n
  {
    hide Step, Allowed, DropsAny;
    if n > 0 {
      GtcRunsAgreeExactly(c, initialCash, states, ops, n - 1);
      StepKeepsGtc(c, states[n - 1], ops[n - 1]);
      GtcNeverDrops(c, states[n - 1], ops[n - 1]);
      StepAgrees(c, states[n - 1], false, ops[n - 1]);
    } else {
      NothingOpenAtStart(c, initialCash);
    }
  }

  lemma NothingOpenAtStart(c: Config, initialCash: real)
    ensures Agree(c, Start(c, initialCash), false) && AllGtc(Start(c, initialCash).engine)
  {
  }
}
