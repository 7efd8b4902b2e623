/** The paper executor: one simulator and one ledger driven in lockstep. */
module Executor {
  import opened Trading
  import opened Numerals
  import opened Simulator
  import opened Sequences
  import A = Accounting
  import L = Ledger

  datatype Exec = Exec(engine: Engine, ledger: L.State, lastMs: Millis)

  /** How a call ends: done, refused to the caller, or stopped by a ledger failure. */
  datatype Result = Done | Rejected | Faulted(error: L.Error)

  datatype Op =
    | Submit(order: PlaceOrder, strategy: Option<string>, now: Millis)
    /** `visit` and `maturing` are the orders in which the engine's and the ledger's maps are iterated. */
    | UpdateBook(token: Token, book: OrderBook, visit: seq<string>, maturing: seq<string>)
    | Settle(market: string, outcome: Outcome, size: real, proceeds: real, now: Millis)
    | Cancel(id: string)
    /** `ids` lists the engine's open orders. */
    | CancelAll(ids: seq<string>)

  function Start(c: Config, initialCash: real): Exec {
    Exec(EMPTY_ENGINE, L.New(initialCash, c.idPrefix), 0)
  }

  // ----- ledger steps

  function LedgerFillOf(f: Fill): A.LedgerFill {
    A.LedgerFill(f.market, f.outcome, f.side, f.price, f.size, f.fee)
  }

  function RecordOne(l: L.State, f: Fill): (L.State, L.Verdict) {
    L.Append(l, f.timestampMs, L.FillRecorded(f.orderId, LedgerFillOf(f)))
  }

  /** Records drained fills in order and stops at the first one the ledger refuses. */
  function RecordAll(l: L.State, fills: seq<Fill>): (L.State, L.Verdict) {
    if fills == [] then (l, L.Ok)
    else
      var (m, v) := RecordAll(l, fills[..|fills| - 1]);
      if v.Err? then (m, v) else RecordOne(m, fills[|fills| - 1])
  }

  function CancelOne(l: L.State, id: string, now: Millis): (L.State, L.Verdict) {
    if id in l.orders then L.Append(l, now, L.OrderCancelled(id)) else (l, L.Ok)
  }

  function CancelEach(l: L.State, ids: seq<string>, now: Millis): (L.State, L.Verdict) {
    if ids == [] then (l, L.Ok)
    else
      var (m, v) := CancelEach(l, ids[..|ids| - 1], now);
      if v.Err? then (m, v) else CancelOne(m, ids[|ids| - 1], now)
  }

  predicate IsMaturing(t: L.Tracked, token: Token, now: Millis) {
    t.state == L.Delayed && TokenOf(t.order.place) == token && t.activeAtMs <= now
  }

  ghost predicate IsMaturingList(ids: seq<string>, l: L.State, token: Token, now: Millis) {
    NoDuplicates(ids) && forall id :: id in ids <==> id in l.orders && IsMaturing(l.orders[id], token, now)
  }

  // ----- executor calls

  /** A buy whose notional exceeds the free balance; fees are not part of the comparison. */
  ghost predicate Unaffordable(l: L.State, order: PlaceOrder) {
    order.side == Buy && L.AvailableCash(l).Some? &&
    Notional(order.price, order.qty) > L.AvailableCash(l).value
  }

  function StateFor(c: Config, order: PlaceOrder): L.OrderState {
    if order.postOnly then L.Resting else if c.latencyMs > 0 then L.Delayed else L.Immediate
  }

  /** The ledger's answer to a placement: an acknowledgement of the engine's id, or a rejection. */
  function Answered(
    c: Config, l: L.State, placementId: string, expected: string, id: Option<string>, order: PlaceOrder, now: Millis)
    : (L.State, L.Verdict)
  {
    match id
    case Some(actual) =>
      if actual != expected then (l, L.Err(L.Inconsistent))
      else L.Append(l, now, L.OrderAck(placementId, actual, StateFor(c, order), SaturatingAdd(now, c.latencyMs)))
    case None => L.Append(l, now, L.OrderRejected(placementId, expected))
  }

  function Placed(l: L.State, order: PlaceOrder, strategy: Option<string>, now: Millis): (L.State, L.Verdict) {
    L.Append(l, now, L.OrderPlaced(L.RecordedOrder(order, strategy)))
  }

  ghost function SubmittedTo(c: Config, s: Exec, order: PlaceOrder, strategy: Option<string>, now: Millis): (Exec, Result) {
    if c.violatesLimits(order) || Unaffordable(s.ledger, order) then (s, Rejected)
    else
      var (placed, v0) := Placed(s.ledger, order, strategy, now);
      if v0.Err? then (s.(ledger := placed), Faulted(v0.error))
      else
        var (engine, id) := Submitted(c, s.engine, order, strategy, now);
        var (answered, v1) := Answered(c, placed, L.EventId(s.ledger.nextSequence),
                                       Numbered(s.ledger.idPrefix, s.ledger.nextOrderId), id, order, now);
        if v1.Err? then (s.(engine := engine, ledger := answered), Faulted(v1.error))
        else
          var (recorded, v2) := RecordAll(answered, engine.pending);
          var drained := engine.(pending := []);
          if v2.Err? then (s.(engine := drained, ledger := recorded), Faulted(v2.error))
          else (Exec(drained, recorded, now), if id.Some? then Done else Rejected)
  }

  function BookUpdatedIn(
    c: Config, s: Exec, token: Token, book: OrderBook, visit: seq<string>, maturing: seq<string>): (Exec, Result)
  {
    var engine := BookUpdated(c, s.engine, token, book, visit);
    var drained := engine.(pending := []);
    var (recorded, v0) := RecordAll(s.ledger, engine.pending);
    if v0.Err? then (s.(engine := drained, ledger := recorded), Faulted(v0.error))
    else
      var (closed, v1) := CancelEach(recorded, maturing, book.timestampMs);
      if v1.Err? then (s.(engine := drained, ledger := closed), Faulted(v1.error))
      else (Exec(drained, closed, book.timestampMs), Done)
  }

  function SettledIn(s: Exec, market: string, outcome: Outcome, size: real, proceeds: real, now: Millis): (Exec, Result) {
    var (l, v) := L.Append(s.ledger, now, L.Settlement(market, outcome, size, proceeds));
    if v.Err? then (s.(ledger := l), Faulted(v.error)) else (s.(ledger := l, lastMs := now), Done)
  }

  function CancelledIn(s: Exec, id: string): (Exec, Result) {
    var (engine, found) := Cancelled(s.engine, id);
    if !found then (s, Done)
    else
      var (l, v) := CancelOne(s.ledger, id, s.lastMs);
      (s.(engine := engine, ledger := l), if v.Err? then Faulted(v.error) else Done)
  }

  function AllCancelledIn(s: Exec, ids: seq<string>): (Exec, Result) {
    var (l, v) := CancelEach(s.ledger, ids, s.lastMs);
    (s.(engine := AllCancelled(s.engine), ledger := l), if v.Err? then Faulted(v.error) else Done)
  }

  ghost function Step(c: Config, s: Exec, op: Op): (Exec, Result) {
    match op
    case Submit(order, strategy, now) => SubmittedTo(c, s, order, strategy, now)
    case UpdateBook(token, book, visit, maturing) => BookUpdatedIn(c, s, token, book, visit, maturing)
    case Settle(market, outcome, size, proceeds, now) => SettledIn(s, market, outcome, size, proceeds, now)
    case Cancel(id) => CancelledIn(s, id)
    case CancelAll(ids) => AllCancelledIn(s, ids)
  }

  /** The lists an operation carries really are iterations of the maps it finds. */
  ghost predicate Allowed(s: Exec, op: Op) {
    match op
    case UpdateBook(token, book, visit, maturing) =>
      IsVisitOf(visit, s.engine, token, book) && IsMaturingList(maturing, s.ledger, token, book.timestampMs)
    case CancelAll(ids) => forall id :: id in ids <==> id in OpenIds(s.engine)
    case _ => true
  }

  /** A run from creation; results tell which calls the ledger stopped. */
  ghost predicate IsRun(c: Config, initialCash: real, states: seq<Exec>, ops: seq<Op>) {
    |states| == |ops| + 1 && states[0] == Start(c, initialCash) &&
    forall i :: 0 <= i < |ops| ==> Allowed(states[i], ops[i]) && states[i + 1] == Step(c, states[i], ops[i]).0
  }

  /** The key by which ids are sorted. */
  function Itself(): string -> string {
    (id: string) => id
  }

  // ----- the executor as an object

  class PaperExecutor {
    const engine: SimEngine
    const ledger: L.PaperLedger
    var lastMs: Millis

    function Value(): Exec
      reads this, engine, ledger, ledger.account
    {
      Exec(engine.Value(), ledger.Value(), lastMs)
    }

    constructor (config: Config, initialCash: real)
      ensures engine.config == config && Value() == Start(config, initialCash)
      ensures fresh(engine) && fresh(ledger) && fresh(ledger.account)
    {
      engine := new SimEngine(config);
      ledger := new L.PaperLedger(initialCash, config.idPrefix);
      lastMs := 0;
    }

    method Record(fills: seq<Fill>) returns (v: L.Verdict)
      modifies ledger, ledger.account
      ensures ledger.Value() == RecordAll(old(ledger.Value()), fills).0
      ensures v == RecordAll(old(ledger.Value()), fills).1
    {
      hide L.Append;
      v := L.Ok;
      var i := 0;
      while i < |fills|
        invariant 0 <= i <= |fills| && v.Ok?
        invariant RecordAll(old(ledger.Value()), fills[..i]) == (ledger.Value(), L.Ok)
      {
        assert fills[..i + 1][..i] == fills[..i];
        v := ledger.AppendEvent(fills[i].timestampMs, L.FillRecorded(fills[i].orderId, LedgerFillOf(fills[i])));
        if v.Err? {
          RecordingStops(old(ledger.Value()), fills, i + 1);
          return;
        }
        i := i + 1;
      }
      assert fills[..i] == fills;
    }

    method CancelInLedger(id: string, now: Millis) returns (v: L.Verdict)
      modifies ledger, ledger.account
      ensures ledger.Value() == CancelOne(old(ledger.Value()), id, now).0
      ensures v == CancelOne(old(ledger.Value()), id, now).1
    {
      hide L.Append;
      v := L.Ok;
      if id in ledger.orders {
        v := ledger.AppendEvent(now, L.OrderCancelled(id));
      }
    }

    method CancelList(ids: seq<string>, now: Millis) returns (v: L.Verdict)
      modifies ledger, ledger.account
      ensures ledger.Value() == CancelEach(old(ledger.Value()), ids, now).0
      ensures v == CancelEach(old(ledger.Value()), ids, now).1
    {
      hide CancelOne;
      v := L.Ok;
      var i := 0;
      while i < |ids|
        invariant 0 <= i <= |ids| && v.Ok?
        invariant CancelEach(old(ledger.Value()), ids[..i], now) == (ledger.Value(), L.Ok)
      {
        assert ids[..i + 1][..i] == ids[..i];
        v := CancelInLedger(ids[i], now);
        if v.Err? {
          CancellingStops(old(ledger.Value()), ids, now, i + 1);
          return;
        }
        i := i + 1;
      }
      assert ids[..i] == ids;
    }

    method SubmitOrder(order: PlaceOrder, strategy: Option<string>, now: Millis) returns (r: Result)
      modifies this, engine, ledger, ledger.account
      ensures Value() == SubmittedTo(engine.config, old(Value()), order, strategy, now).0
      ensures r == SubmittedTo(engine.config, old(Value()), order, strategy, now).1
    {
      hide L.Append, Submitted, RecordAll, L.AvailableCash;
      if engine.config.violatesLimits(order) {
        return Rejected;
      }
      if order.side == Buy {
        var free := ledger.FreeCash();
        if free.Some? && Notional(order.price, order.qty) > free.value {
          return Rejected;
        }
      }
      var placementId := L.EventId(ledger.nextSequence);
      var expected := Numbered(ledger.idPrefix, ledger.nextOrderId);
      var v := ledger.AppendEvent(now, L.OrderPlaced(L.RecordedOrder(order, strategy)));
      if v.Err? {
        return Faulted(v.error);
      }
      var id := engine.Submit(order, strategy, now);
      if id.Some? {
        if id.value != expected {
          return Faulted(L.Inconsistent);
        }
        v := ledger.AppendEvent(now, L.OrderAck(placementId, id.value, StateFor(engine.config, order),
                                                SaturatingAdd(now, engine.config.latencyMs)));
      } else {
        v := ledger.AppendEvent(now, L.OrderRejected(placementId, expected));
      }
      if v.Err? {
        return Faulted(v.error);
      }
      var drained := engine.DrainFills();
      v := Record(drained);
      if v.Err? {
        return Faulted(v.error);
      }
      lastMs := now;
      r := if id.Some? then Done else Rejected;
    }

    method UpdateBook(token: Token, book: OrderBook) returns (r: Result, ghost visit: seq<string>, ghost maturing: seq<string>)
      modifies this, engine, ledger, ledger.account
      ensures Allowed(old(Value()), Op.UpdateBook(token, book, visit, maturing))
      ensures Value() == BookUpdatedIn(engine.config, old(Value()), token, book, visit, maturing).0
      ensures r == BookUpdatedIn(engine.config, old(Value()), token, book, visit, maturing).1
    {
      hide BookUpdated, RecordAll, CancelEach, IsVisitOf;
      var ids := MaturingDelayed(token, book.timestampMs);
      maturing := ids;
      visit := engine.UpdateBook(token, book);
      var drained := engine.DrainFills();
      var v := Record(drained);
      if v.Err? {
        r := Faulted(v.error);
        return;
      }
      v := CancelList(ids, book.timestampMs);
      if v.Err? {
        r := Faulted(v.error);
        return;
      }
      lastMs := book.timestampMs;
      r := Done;
    }

    method MaturingDelayed(token: Token, now: Millis) returns (ids: seq<string>)
      ensures IsMaturingList(ids, ledger.Value(), token, now)
    {
      var orders := ledger.orders;
      var todo := set id | id in orders && IsMaturing(orders[id], token, now);
      ghost var all := todo;
      ids := [];
      while todo != {}
        invariant todo <= all && NoDuplicates(ids) && forall id :: id in ids <==> id in all - todo
        decreases todo
      {
        var id :| id in todo;
        assert id !in ids;
        ids := ids + [id];
        todo := todo - {id};
      }
    }

    method SettlePosition(market: string, outcome: Outcome, size: real, proceeds: real, now: Millis) returns (r: Result)
      modifies this, ledger, ledger.account
      ensures Value() == SettledIn(old(Value()), market, outcome, size, proceeds, now).0
      ensures r == SettledIn(old(Value()), market, outcome, size, proceeds, now).1
    {
      hide L.Append;
      var v := ledger.AppendEvent(now, L.Settlement(market, outcome, size, proceeds));
      if v.Err? {
        return Faulted(v.error);
      }
      lastMs := now;
      r := Done;
    }

    method CancelOrder(id: string) returns (r: Result)
      modifies engine, ledger, ledger.account
      ensures Value() == CancelledIn(old(Value()), id).0 && r == CancelledIn(old(Value()), id).1
    {
      hide Cancelled, CancelOne;
      var freed := engine.Cancel(id);
      if freed.None? {
        NothingCancelled(old(engine.Value()), id);
        return Done;
      }
      var v := CancelInLedger(id, lastMs);
      r := if v.Err? then Faulted(v.error) else Done;
    }

    /** The ids of the engine's open orders, sorted. */
    method OpenOrders() returns (ids: seq<string>)
      ensures forall id :: id in ids <==> id in OpenIds(engine.Value())
      ensures SortedBy(Itself(), ids)
    {
      hide Sort, SortedBy;
      var todo := engine.resting.Keys + set o | o in engine.delayed :: o.orderId;
      ids := [];
      ghost var all := todo;
      while todo != {}
        invariant todo <= all && forall id :: id in ids <==> id in all - todo
        decreases todo
      {
        var id :| id in todo;
        ids := ids + [id];
        todo := todo - {id};
      }
      SortSorts(Itself(), ids);
      SortKeepsMembers(ids);
      ids := Sort(Itself(), ids);
    }

    method CancelEverything() returns (r: Result, ghost ids: seq<string>)
      modifies engine, ledger, ledger.account
      ensures Allowed(old(Value()), CancelAll(ids)) && SortedBy(Itself(), ids)
      ensures Value() == AllCancelledIn(old(Value()), ids).0 && r == AllCancelledIn(old(Value()), ids).1
    {
      hide CancelEach, SortedBy, OpenWorth;
      var open := OpenOrders();
      ids := open;
      var _ := engine.CancelAll();
      var v := CancelList(open, lastMs);
      r := if v.Err? then Faulted(v.error) else Done;
    }
  }

  lemma SortKeepsMembers(ids: seq<string>)
    ensures forall id :: id in Sort(Itself(), ids) <==> id in ids
  {
    hide Sort;
    var sorted := Sort(Itself(), ids);
    assert forall id :: id in sorted <==> id in multiset(sorted);
  }

  lemma NothingCancelled(e: Engine, id: string)
    requires !Cancelled(e, id).1
    ensures Cancelled(e, id).0 == e
  {
  }

  lemma {:induction false} RecordingStops(l: L.State, fills: seq<Fill>, i: nat)
    requires i <= |fills| && RecordAll(l, fills[..i]).1.Err?
    ensures RecordAll(l, fills) == RecordAll(l, fills[..i])
    decreases |fills| - i
  {
    hide RecordOne;
    if i == |fills| {
      assert fills[..i] == fills;
    } else {
      assert fills[..i + 1][..i] == fills[..i];
      RecordingStops(l, fills, i + 1);
    }
  }

  lemma {:induction false} CancellingStops(l: L.State, ids: seq<string>, now: Millis, i: nat)
    requires i <= |ids| && CancelEach(l, ids[..i], now).1.Err?
    ensures CancelEach(l, ids, now) == CancelEach(l, ids[..i], now)
    decreases |ids| - i
  {
    hide CancelOne;
    if i == |ids| {
      assert ids[..i] == ids;
    } else {
      assert ids[..i + 1][..i] == ids[..i];
      CancellingStops(l, ids, now, i + 1);
    }
  }
}
