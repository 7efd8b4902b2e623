/** Restarting the executor from its recorded ledger. */
module Restart {
  import opened Trading
  import opened Numerals
  import opened BookWalk
  import opened Simulator
  import opened Executor
  import opened Agreement
  import A = Accounting
  import L = Ledger
  import O = OrderLifecycle

  // ----- every executor run is a run of ledger calls

  ghost predicate NonZero(fills: seq<Fill>) {
    forall f :: f in fills ==> f.size != 0.0
  }

  ghost predicate AllCalls(calls: seq<L.Call>) {
    forall i :: 0 <= i < |calls| ==> L.IsCall(calls[i])
  }

  lemma OneMoreCall(initialCash: real, prefix: string, calls: seq<L.Call>, call: L.Call)
    requires AllCalls(calls) && L.IsCall(call)
    ensures AllCalls(calls + [call])
    ensures L.Live(initialCash, prefix, calls + [call])
         == L.Append(L.Live(initialCash, prefix, calls), call.timestampMs, call.event).0
    ensures L.Append(L.Live(initialCash, prefix, calls), call.timestampMs, call.event).1.Ok? ==>
      L.LeakedFees(initialCash, prefix, calls + [call]) == L.LeakedFees(initialCash, prefix, calls)
  {
    hide L.Append, L.IsCall, L.LeakedFee;
    assert (calls + [call])[..|calls|] == calls;
    if L.Append(L.Live(initialCash, prefix, calls), call.timestampMs, call.event).1.Ok? {
      L.AcceptedCallDoesNotLeak(L.Live(initialCash, prefix, calls), call);
    }
  }

  lemma {:induction false} RecordAllIsLive(initialCash: real, prefix: string, calls: seq<L.Call>, fills: seq<Fill>)
    returns (more: seq<L.Call>)
    requires AllCalls(calls) && NonZero(fills)
    ensures AllCalls(more)
    ensures L.Live(initialCash, prefix, more) == RecordAll(L.Live(initialCash, prefix, calls), fills).0
    ensures RecordAll(L.Live(initialCash, prefix, calls), fills).1.Ok? ==>
      L.LeakedFees(initialCash, prefix, more) == L.LeakedFees(initialCash, prefix, calls)
    decreases |fills|
  {
    hide L.Append, L.Live, L.LeakedFees;
    more := calls;
    if fills != [] {
      var n := |fills| - 1;
      var f := fills[n];
      assert f in fills;
      more := RecordAllIsLive(initialCash, prefix, calls, fills[..n]);
      if RecordAll(L.Live(initialCash, prefix, calls), fills[..n]).1.Ok? {
        var call := L.Call(f.timestampMs, L.FillRecorded(f.orderId, LedgerFillOf(f)));
        OneMoreCall(initialCash, prefix, more, call);
        more := more + [call];
      }
    }
  }

  lemma {:induction false} CancelEachIsLive(initialCash: real, prefix: string, calls: seq<L.Call>, ids: seq<string>, now: Millis)
    returns (more: seq<L.Call>)
    requires AllCalls(calls)
    ensures AllCalls(more)
    ensures L.Live(initialCash, prefix, more) == CancelEach(L.Live(initialCash, prefix, calls), ids, now).0
    ensures CancelEach(L.Live(initialCash, prefix, calls), ids, now).1.Ok? ==>
      L.LeakedFees(initialCash, prefix, more) == L.LeakedFees(initialCash, prefix, calls)
    decreases |ids|
  {
    hide L.Append, L.Live, L.LeakedFees;
    more := calls;
    if ids != [] {
      var n := |ids| - 1;
      more := CancelEachIsLive(initialCash, prefix, calls, ids[..n], now);
      var (m, v) := CancelEach(L.Live(initialCash, prefix, calls), ids[..n], now);
      if v.Ok? && ids[n] in m.orders {
        var call := L.Call(now, L.OrderCancelled(ids[n]));
        OneMoreCall(initialCash, prefix, more, call);
        more := more + [call];
      }
    }
  }

  lemma SubmitIsLive(
    c: Config, initialCash: real, s: Exec, order: PlaceOrder, strategy: Option<string>, now: Millis, calls: seq<L.Call>)
    returns (more: seq<L.Call>)
    requires AllCalls(calls) && s.ledger == L.Live(initialCash, c.idPrefix, calls) && NonZero(s.engine.pending)
    ensures AllCalls(more)
    ensures SubmittedTo(c, s, order, strategy, now).0.ledger == L.Live(initialCash, c.idPrefix, more)
    ensures !SubmittedTo(c, s, order, strategy, now).1.Faulted? ==>
      L.LeakedFees(initialCash, c.idPrefix, more) == L.LeakedFees(initialCash, c.idPrefix, calls)
  {
    hide L.Append, L.Live, Submitted, RecordAll, Unaffordable, L.LeakedFees;
    more := calls;
    if !c.violatesLimits(order) && !Unaffordable(s.ledger, order) {
      var place := L.Call(now, L.OrderPlaced(L.RecordedOrder(order, strategy)));
      OneMoreCall(initialCash, c.idPrefix, calls, place);
      more := calls + [place];
      var (placed, v0) := Placed(s.ledger, order, strategy, now);
      if v0.Ok? {
        var (engine, id) := Submitted(c, s.engine, order, strategy, now);
        var placementId, expected := L.EventId(s.ledger.nextSequence), Numbered(s.ledger.idPrefix, s.ledger.nextOrderId);
        var v1 := Answered(c, placed, placementId, expected, id, order, now).1;
        if id.None? || id.value == expected {
          var answer := L.Call(now, match id
            case None => L.OrderRejected(placementId, expected)
            case Some(actual) => L.OrderAck(placementId, actual, StateFor(c, order), SaturatingAdd(now, c.latencyMs)));
          OneMoreCall(initialCash, c.idPrefix, more, answer);
          more := more + [answer];
        }
        if v1.Ok? {
          SubmittedNonZero(c, s.engine, order, strategy, now);
          more := RecordAllIsLive(initialCash, c.idPrefix, more, engine.pending);
        }
      }
    }
  }

  lemma SubmittedNonZero(c: Config, e: Engine, order: PlaceOrder, strategy: Option<string>, now: Millis)
    requires NonZero(e.pending)
    ensures NonZero(Submitted(c, e, order, strategy, now).0.pending)
  {
    hide TakerFill, Touches;
    if TokenOf(order) in e.books {
      O.TakerFacts(c, e.books[TokenOf(order)], NewOrder(c, e, order, strategy, now), now);
    }
  }

  lemma {:induction false} SweepNonZero(c: Config, book: OrderBook, resting: map<string, LiveOrder>, visit: seq<string>)
    ensures NonZero(SweepFills(c, book, resting, visit))
    decreases |visit|
  {
    if visit != [] {
      SweepNonZero(c, book, resting, visit[..|visit| - 1]);
    }
  }

  lemma {:induction false} ActivationNonZero(c: Config, token: Token, book: OrderBook, delayed: seq<LiveOrder>)
    ensures NonZero(ActivationFills(c, token, book, delayed))
    decreases |delayed|
  {
    hide TakerFill;
    if delayed != [] {
      var n := |delayed| - 1;
      ActivationNonZero(c, token, book, delayed[..n]);
      O.TakerFacts(c, book, delayed[n], book.timestampMs);
    }
  }

  lemma UpdatedNonZero(c: Config, e: Engine, token: Token, book: OrderBook, visit: seq<string>)
    requires NonZero(e.pending)
    ensures NonZero(BookUpdated(c, e, token, book, visit).pending)
  {
    hide SweepFills, ActivationFills;
    SweepNonZero(c, book, UnexpiredResting(e.resting, token, book.timestampMs), visit);
    ActivationNonZero(c, token, book, UnexpiredDelayed(e.delayed, token, book.timestampMs));
  }

  lemma StepIsLive(c: Config, initialCash: real, s: Exec, op: Op, calls: seq<L.Call>) returns (more: seq<L.Call>)
    requires AllCalls(calls) && s.ledger == L.Live(initialCash, c.idPrefix, calls) && NonZero(s.engine.pending)
    ensures var s' := Step(c, s, op).0;
      AllCalls(more) && s'.ledger == L.Live(initialCash, c.idPrefix, more) && NonZero(s'.engine.pending)
    ensures !Step(c, s, op).1.Faulted? ==>
      L.LeakedFees(initialCash, c.idPrefix, more) == L.LeakedFees(initialCash, c.idPrefix, calls)
  {
    hide L.Append, L.Live, RecordAll, CancelEach, Submitted, BookUpdated, Answered, Placed, Unaffordable, L.LeakedFees;
    match op {
      case Submit(order, strategy, now) =>
        more := SubmitIsLive(c, initialCash, s, order, strategy, now, calls);
        SubmittedNonZero(c, s.engine, order, strategy, now);
      case UpdateBook(token, book, visit, maturing) =>
        UpdatedNonZero(c, s.engine, token, book, visit);
        var fills := BookUpdated(c, s.engine, token, book, visit).pending;
        more := RecordAllIsLive(initialCash, c.idPrefix, calls, fills);
        if RecordAll(s.ledger, fills).1.Ok? {
          more := CancelEachIsLive(initialCash, c.idPrefix, more, maturing, book.timestampMs);
        }
      case Settle(market, outcome, size, proceeds, now) =>
        var call := L.Call(now, L.Settlement(market, outcome, size, proceeds));
        OneMoreCall(initialCash, c.idPrefix, calls, call);
        more := calls + [call];
      case Cancel(id) =>
        more := calls;
        if Cancelled(s.engine, id).1 && id in s.ledger.orders {
          var call := L.Call(s.lastMs, L.OrderCancelled(id));
          OneMoreCall(initialCash, c.idPrefix, calls, call);
          more := calls + [call];
        }
      case CancelAll(ids) => more := CancelEachIsLive(initialCash, c.idPrefix, calls, ids, s.lastMs);
    }
  }

  /** The ledger of any executor run, failures included, is the ledger of some run of ledger calls. */
  lemma {:induction false} RunIsLive(c: Config, initialCash: real, states: seq<Exec>, ops: seq<Op>, n: nat)
    returns (calls: seq<L.Call>)
    requires IsRun(c, initialCash, states, ops) && n <= |ops|
    ensures AllCalls(calls) && states[n].ledger == L.Live(initialCash, c.idPrefix, calls)
    ensures NonZero(states[n].engine.pending)
    decreases n
  {
    hide Step, Allowed, L.Append;
    if n == 0 {
      calls := [];
    } else {
      calls := RunIsLive(c, initialCash, states, ops, n - 1);
      calls := StepIsLive(c, initialCash, states[n - 1], ops[n - 1], calls);
    }
  }

  // ----- rebuilding the engine

  function EmptyBook(timestampMs: Millis): OrderBook {
    OrderBook([], [], timestampMs)
  }

  /** Takes a closed order out again and, with latency, sweeps its market with an empty book. */
  function Closed(c: Config, e: Engine, order: PlaceOrder, id: Option<string>, submittedMs: Millis): Engine {
    var cancelled := if id.Some? then Cancelled(e, id.value).0 else e;
    if !order.postOnly && c.latencyMs > 0 then
      BookUpdated(c, cancelled, TokenOf(order), EmptyBook(SaturatingAdd(submittedMs, c.latencyMs)), [])
    else cancelled
  }

  /** Re-submits one recorded placement; nothing when the ids diverge or the placement is unknown. */
  function Resubmitted(c: Config, l: L.State, e: Engine, entry: L.Entry): Option<Engine>
    requires entry.event.OrderPlaced?
  {
    if entry.eventId !in l.placements then None
    else
      var placement := l.placements[entry.eventId];
      var expected := placement.expectedOrderId;
      var recorded := entry.event.order.place;
      var order := if expected in l.orders then recorded.(qty := l.orders[expected].order.place.qty) else recorded;
      var shown := if order.postOnly then BookUpdated(c, e, TokenOf(order), EmptyBook(I64_MIN), []) else e;
      var (submitted, id) := Submitted(c, shown, order, None, entry.timestampMs);
      match placement.terminal
      case Some(Ack(_)) =>
        if id.Some? && id.value != expected then None
        else if expected in l.orders then Some(submitted)
        else Some(Closed(c, submitted, order, id, entry.timestampMs))
      case _ => Some(Closed(c, submitted, order, id, entry.timestampMs))
  }

  function Replayed(c: Config, l: L.State, entries: seq<L.Entry>): Option<Engine> {
    if entries == [] then Some(EMPTY_ENGINE)
    else
      match Replayed(c, l, entries[..|entries| - 1])
      case None => None
      case Some(e) =>
        var last := entries[|entries| - 1];
        if last.event.OrderPlaced? then Resubmitted(c, l, e, last) else Some(e)
  }

  function RebuiltEngine(c: Config, l: L.State): Option<Engine> {
    match Replayed(c, l, l.entries)
    case None => None
    case Some(e) => Some(e.(pending := []))
  }

  method RebuildEngine(config: Config, ledger: L.PaperLedger) returns (ok: bool, engine: SimEngine)
    ensures fresh(engine) && engine.config == config
    ensures ok == RebuiltEngine(config, ledger.Value()).Some?
    ensures ok ==> engine.Value() == RebuiltEngine(config, ledger.Value()).value
  {
    hide BookUpdated, Submitted, Cancelled;
    engine := new SimEngine(config);
    ghost var l := ledger.Value();
    var entries := ledger.entries;
    var i := 0;
    while i < |entries|
      invariant 0 <= i <= |entries| && fresh(engine) && engine.config == config && ledger.Value() == l
      invariant Replayed(config, l, entries[..i]) == Some(engine.Value())
    {
      assert entries[..i + 1][..i] == entries[..i];
      if entries[i].event.OrderPlaced? {
        ok := ResubmitInto(engine, ledger, entries[i]);
        if !ok {
          DivergencePersists(config, l, entries, i + 1);
          return;
        }
      }
      i := i + 1;
    }
    assert entries[..i] == entries;
    var _ := engine.DrainFills();
    ok := true;
  }

  method ResubmitInto(engine: SimEngine, ledger: L.PaperLedger, entry: L.Entry) returns (ok: bool)
    requires entry.event.OrderPlaced?
    modifies engine
    ensures ok == Resubmitted(engine.config, ledger.Value(), old(engine.Value()), entry).Some?
    ensures ok ==> engine.Value() == Resubmitted(engine.config, ledger.Value(), old(engine.Value()), entry).value
  {
    hide BookUpdated, Submitted, Cancelled, IsVisitOf;
    if entry.eventId !in ledger.placements {
      return false;
    }
    var placement := ledger.placements[entry.eventId];
    var expected := placement.expectedOrderId;
    var order := entry.event.order.place;
    if expected in ledger.orders {
      order := order.(qty := ledger.orders[expected].order.place.qty);
    }
    if order.postOnly {
      ShowEmptyBook(engine, TokenOf(order), I64_MIN);
    }
    var id := engine.Submit(order, None, entry.timestampMs);
    if placement.terminal.Some? && placement.terminal.value.Ack? {
      if id.Some? && id.value != expected {
        return false;
      }
      if expected !in ledger.orders {
        CloseReplayed(engine, order, id, entry.timestampMs);
      }
    } else {
      CloseReplayed(engine, order, id, entry.timestampMs);
    }
    ok := true;
  }

  method CloseReplayed(engine: SimEngine, order: PlaceOrder, id: Option<string>, submittedMs: Millis)
    modifies engine
    ensures engine.Value() == Closed(engine.config, old(engine.Value()), order, id, submittedMs)
  {
    hide BookUpdated, Cancelled;
    if id.Some? {
      var _ := engine.Cancel(id.value);
    }
    if !order.postOnly && engine.config.latencyMs > 0 {
      ShowEmptyBook(engine, TokenOf(order), SaturatingAdd(submittedMs, engine.config.latencyMs));
    }
  }

  /** An empty book crosses nothing, so there is only one way to visit the crossed orders. */
  method ShowEmptyBook(engine: SimEngine, token: Token, now: Millis)
    modifies engine
    ensures engine.Value() == BookUpdated(engine.config, old(engine.Value()), token, EmptyBook(now), [])
  {
    hide BookUpdated;
    ghost var visit := engine.UpdateBook(token, EmptyBook(now));
    NothingCrosses(visit, old(engine.Value()), token, now);
  }

  lemma NothingCrosses(visit: seq<string>, e: Engine, token: Token, now: Millis)
    requires IsVisitOf(visit, e, token, EmptyBook(now))
    ensures visit == []
  {
    forall id ensures multiset(visit)[id] == 0 {
      assert id !in visit;
    }
    assert |visit| == |multiset(visit)|;
  }

  lemma {:induction false} DivergencePersists(c: Config, l: L.State, entries: seq<L.Entry>, i: nat)
    requires i <= |entries| && Replayed(c, l, entries[..i]).None?
    ensures Replayed(c, l, entries).None?
    decreases |entries| - i
  {
    hide Resubmitted;
    if i == |entries| {
      assert entries[..i] == entries;
    } else {
      assert entries[..i + 1][..i] == entries[..i];
      DivergencePersists(c, l, entries, i + 1);
    }
  }

  // ----- where open orders come from

  function Placements(entries: seq<L.Entry>): seq<L.Entry> {
    if entries == [] then []
    else
      var last := entries[|entries| - 1];
      Placements(entries[..|entries| - 1]) + if last.event.OrderPlaced? then [last] else []
  }

  /** The i-th placement is on record, expects the i-th id, was within the limits and not expired when made. */
  predicate OnRecord(c: Config, l: L.State, entry: L.Entry, i: nat) {
    entry.event.OrderPlaced? && entry.eventId in l.placements &&
    l.placements[entry.eventId].order == entry.event.order &&
    l.placements[entry.eventId].expectedOrderId == Numbered(l.idPrefix, i) &&
    !c.violatesLimits(entry.event.order.place) &&
    !Expired(entry.event.order.place, entry.timestampMs)
  }

  /** An open order is its placement with a smaller quantity. */
  predicate OpenedBy(c: Config, t: L.Tracked, entry: L.Entry) {
    entry.event.OrderPlaced? &&
    t.order == entry.event.order.(place := entry.event.order.place.(qty := t.order.place.qty)) &&
    t.state == StateFor(c, entry.event.order.place) && t.submittedMs == entry.timestampMs &&
    t.activeAtMs == SaturatingAdd(entry.timestampMs, c.latencyMs)
  }

  predicate Acknowledged(l: L.State, entry: L.Entry) {
    entry.eventId in l.placements && l.placements[entry.eventId].terminal.Some? &&
    l.placements[entry.eventId].terminal.value.Ack?
  }

  predicate Opened(c: Config, l: L.State, id: string, entry: L.Entry, i: nat) {
    id in l.orders && id == Numbered(l.idPrefix, i) && OpenedBy(c, l.orders[id], entry) && Acknowledged(l, entry)
  }

  ghost predicate PlacementsTraced(c: Config, l: L.State) {
    var ps := Placements(l.entries);
    |ps| == l.nextOrderId && forall i :: 0 <= i < |ps| ==> OnRecord(c, l, ps[i], i)
  }

  ghost predicate OrdersTraced(c: Config, l: L.State) {
    var ps := Placements(l.entries);
    forall id :: id in l.orders ==> exists i :: 0 <= i < |ps| && Opened(c, l, id, ps[i], i)
  }

  ghost predicate Traced(c: Config, l: L.State) {
    PlacementsTraced(c, l) && OrdersTraced(c, l)
  }

  lemma PlacementsGrow(entries: seq<L.Entry>, entry: L.Entry)
    ensures Placements(entries + [entry]) == Placements(entries) + if entry.event.OrderPlaced? then [entry] else []
  {
    assert (entries + [entry])[..|entries|] == entries;
  }

  /** Orders that only leave or shrink stay traced. */
  lemma StaysTraced(c: Config, l: L.State, m: L.State, entry: L.Entry)
    requires Traced(c, l) && m.entries == l.entries + [entry] && !entry.event.OrderPlaced?
    requires m.idPrefix == l.idPrefix && m.nextOrderId == l.nextOrderId && m.placements == l.placements
    requires forall id :: id in m.orders ==>
      id in l.orders && m.orders[id] == L.WithQty(l.orders[id], m.orders[id].order.place.qty)
    ensures Traced(c, m)
  {
    hide OnRecord, Opened;
    PlacementsGrow(l.entries, entry);
    var ps := Placements(l.entries);
    assert Placements(m.entries) == ps;
    forall i | 0 <= i < |ps| ensures OnRecord(c, m, ps[i], i) {
      assert OnRecord(c, l, ps[i], i);
      RecordFrame(c, l, m, ps[i], i);
    }
    forall id | id in m.orders
      ensures exists i :: 0 <= i < |ps| && Opened(c, m, id, ps[i], i)
    {
      var i :| 0 <= i < |ps| && Opened(c, l, id, ps[i], i);
      ShrunkStaysOpened(c, l, m, id, ps[i], i);
    }
  }

  lemma RecordFrame(c: Config, l: L.State, m: L.State, entry: L.Entry, i: nat)
    requires OnRecord(c, l, entry, i) && m.placements == l.placements && m.idPrefix == l.idPrefix
    ensures OnRecord(c, m, entry, i)
  {
  }

  lemma ShrunkStaysOpened(c: Config, l: L.State, m: L.State, id: string, entry: L.Entry, i: nat)
    requires Opened(c, l, id, entry, i) && m.placements == l.placements && m.idPrefix == l.idPrefix
    requires id in m.orders && m.orders[id] == L.WithQty(l.orders[id], m.orders[id].order.place.qty)
    ensures Opened(c, m, id, entry, i)
  {
  }

  lemma RecordStaysTraced(c: Config, l: L.State, f: Fill)
    requires Traced(c, l) && RecordOne(l, f).1.Ok?
    ensures Traced(c, RecordOne(l, f).0)
  {
    hide A.Filled, Traced;
    StaysTraced(c, l, RecordOne(l, f).0, L.NextEntry(l, f.timestampMs, L.FillRecorded(f.orderId, LedgerFillOf(f))));
  }

  lemma {:induction false} RecordAllStaysTraced(c: Config, l: L.State, fills: seq<Fill>)
    requires Traced(c, l) && RecordAll(l, fills).1.Ok?
    ensures Traced(c, RecordAll(l, fills).0)
    decreases |fills|
  {
    hide RecordOne, Traced;
    if fills != [] {
      RecordAllStaysTraced(c, l, fills[..|fills| - 1]);
      RecordStaysTraced(c, RecordAll(l, fills[..|fills| - 1]).0, fills[|fills| - 1]);
    }
  }

  lemma CancelStaysTraced(c: Config, l: L.State, id: string, now: Millis)
    requires Traced(c, l)
    ensures Traced(c, CancelOne(l, id, now).0)
  {
    hide Traced;
    if id in l.orders {
      StaysTraced(c, l, CancelOne(l, id, now).0, L.NextEntry(l, now, L.OrderCancelled(id)));
    }
  }

  lemma {:induction false} CancelEachStaysTraced(c: Config, l: L.State, ids: seq<string>, now: Millis)
    requires Traced(c, l)
    ensures Traced(c, CancelEach(l, ids, now).0)
    decreases |ids|
  {
    hide CancelOne, Traced;
    if ids != [] {
      CancelEachStaysTraced(c, l, ids[..|ids| - 1], now);
      CancelStaysTraced(c, CancelEach(l, ids[..|ids| - 1], now).0, ids[|ids| - 1], now);
    }
  }

  lemma SettleStaysTraced(c: Config, l: L.State, market: string, outcome: Outcome, size: real, proceeds: real, now: Millis)
    requires Traced(c, l) && L.Append(l, now, L.Settlement(market, outcome, size, proceeds)).1.Ok?
    ensures Traced(c, L.Append(l, now, L.Settlement(market, outcome, size, proceeds)).0)
  {
    hide A.Settled, A.Held, Traced;
    var event := L.Settlement(market, outcome, size, proceeds);
    StaysTraced(c, l, L.Append(l, now, event).0, L.NextEntry(l, now, event));
  }

  /** A placement answered with the id it expects is traced, and so is the order it opens. */
  lemma AnswerStaysTraced(
    c: Config, l: L.State, order: PlaceOrder, strategy: Option<string>, id: Option<string>, now: Millis)
    requires Traced(c, l) && PlacementsAnswered(l) && !Expired(order, now) && !c.violatesLimits(order)
    requires id in {None, Some(Numbered(l.idPrefix, l.nextOrderId))}
    ensures var placed := Placed(l, order, strategy, now).0;
      Traced(c, Answered(c, placed, L.EventId(l.nextSequence), Numbered(l.idPrefix, l.nextOrderId), id, order, now).0)
  {
    var placed := Placed(l, order, strategy, now).0;
    PlacedEffect(l, order, strategy, now);
    AnsweredEffect(c, l, order, strategy, id, now);
    var expected := Numbered(l.idPrefix, l.nextOrderId);
    var m := Answered(c, placed, L.EventId(l.nextSequence), expected, id, order, now).0;
    var entry := L.NextEntry(l, now, L.OrderPlaced(L.RecordedOrder(order, strategy)));
    var answer := m.entries[|m.entries| - 1];
    AnswerLogged(c, l, order, strategy, id, now);
    PlacementsGrow(l.entries, entry);
    PlacementsGrow(l.entries + [entry], answer);
    AnswerTracesPlacements(c, l, m, entry);
    AnswerTracesOrders(c, l, m, entry, expected);
  }

  lemma AnswerLogged(c: Config, l: L.State, order: PlaceOrder, strategy: Option<string>, id: Option<string>, now: Millis)
    requires PlacementsAnswered(l) && id in {None, Some(Numbered(l.idPrefix, l.nextOrderId))}
    ensures var placed := Placed(l, order, strategy, now).0;
      var expected := Numbered(l.idPrefix, l.nextOrderId);
      var m := Answered(c, placed, L.EventId(l.nextSequence), expected, id, order, now).0;
      var entry := L.NextEntry(l, now, L.OrderPlaced(L.RecordedOrder(order, strategy)));
      |m.entries| == |l.entries| + 2 && m.entries[..|l.entries|] == l.entries &&
      m.entries == l.entries + [entry] + [m.entries[|l.entries| + 1]] &&
      !m.entries[|l.entries| + 1].event.OrderPlaced? &&
      m.placements.Keys == l.placements.Keys + {entry.eventId} &&
      (forall x :: x in l.placements ==> m.placements[x] == l.placements[x]) &&
      m.placements[entry.eventId].order == entry.event.order &&
      m.placements[entry.eventId].expectedOrderId == expected &&
      (id.Some? ==> Acknowledged(m, entry)) && entry.eventId !in l.placements
  {
    assert L.EventId(l.nextSequence) !in l.placements;
  }

  lemma AnswerTracesPlacements(c: Config, l: L.State, m: L.State, entry: L.Entry)
    requires PlacementsTraced(c, l) && Placements(m.entries) == Placements(l.entries) + [entry]
    requires m.idPrefix == l.idPrefix && m.nextOrderId == l.nextOrderId + 1
    requires (forall x :: x in l.placements ==> x in m.placements && m.placements[x] == l.placements[x])
    requires OnRecord(c, m, entry, l.nextOrderId)
    ensures PlacementsTraced(c, m)
  {
  }

  lemma AnswerTracesOrders(c: Config, l: L.State, m: L.State, entry: L.Entry, expected: string)
    requires OrdersTraced(c, l) && |Placements(l.entries)| == l.nextOrderId
    requires Placements(m.entries) == Placements(l.entries) + [entry]
    requires m.idPrefix == l.idPrefix && expected == Numbered(l.idPrefix, l.nextOrderId)
    requires m.orders == l.orders || (expected in m.orders && m.orders == l.orders[expected := m.orders[expected]])
    requires m.orders != l.orders ==> OpenedBy(c, m.orders[expected], entry) && Acknowledged(m, entry)
    requires forall x :: x in l.placements ==> x in m.placements && m.placements[x] == l.placements[x]
    ensures OrdersTraced(c, m)
  {
    var ps, qs := Placements(l.entries), Placements(m.entries);
    forall id | id in m.orders
      ensures exists i :: 0 <= i < |qs| && Opened(c, m, id, qs[i], i)
    {
      if m.orders != l.orders && id == expected {
        assert Opened(c, m, id, qs[l.nextOrderId], l.nextOrderId);
      } else {
        var i :| 0 <= i < |ps| && Opened(c, l, id, ps[i], i);
        assert Opened(c, m, id, qs[i], i);
      }
    }
  }

  lemma SubmitStaysTraced(c: Config, s: Exec, lax: bool, order: PlaceOrder, strategy: Option<string>, now: Millis)
    requires Agree(c, s, lax) && Traced(c, s.ledger) && !Expired(order, now)
    requires !SubmittedTo(c, s, order, strategy, now).1.Faulted?
    ensures Traced(c, SubmittedTo(c, s, order, strategy, now).0.ledger)
  {
    hide Submitted, Answered, Placed, RecordAll, Traced, Unaffordable, EngineShape, EngineInLedger, LedgerInEngine, PlacementsAnswered;
    if !c.violatesLimits(order) && !Unaffordable(s.ledger, order) {
      var (engine, id) := Submitted(c, s.engine, order, strategy, now);
      SubmittedEffect(c, s.engine, order, strategy, now);
      NoPending(c, s, lax);
      AnswerStaysTraced(c, s.ledger, order, strategy, id, now);
      var placed := Placed(s.ledger, order, strategy, now).0;
      var answered := Answered(c, placed, L.EventId(s.ledger.nextSequence),
                               Numbered(s.ledger.idPrefix, s.ledger.nextOrderId), id, order, now).0;
      RecordAllStaysTraced(c, answered, engine.pending);
    }
  }

  lemma StepStaysTraced(c: Config, s: Exec, lax: bool, op: Op)
    requires Agree(c, s, lax) && Traced(c, s.ledger) && Timely(op) && !Step(c, s, op).1.Faulted?
    ensures Traced(c, Step(c, s, op).0.ledger)
  {
    hide L.Append, RecordAll, CancelEach, CancelOne, BookUpdated, Traced, Agree;
    match op {
      case Submit(order, strategy, now) => SubmitStaysTraced(c, s, lax, order, strategy, now);
      case UpdateBook(token, book, visit, maturing) =>
        var fills := BookUpdated(c, s.engine, token, book, visit).pending;
        RecordAllStaysTraced(c, s.ledger, fills);
        CancelEachStaysTraced(c, RecordAll(s.ledger, fills).0, maturing, book.timestampMs);
      case Settle(market, outcome, size, proceeds, now) =>
        SettleStaysTraced(c, s.ledger, market, outcome, size, proceeds, now);
      case Cancel(id) => CancelStaysTraced(c, s.ledger, id, s.lastMs);
      case CancelAll(ids) => CancelEachStaysTraced(c, s.ledger, ids, s.lastMs);
    }
  }

  lemma StartIsTraced(c: Config, initialCash: real)
    ensures Traced(c, Start(c, initialCash).ledger)
  {
    PlacementsGrow([], L.Entry(L.EventId(0), 0, 0, L.CashMovement(initialCash)));
  }

  lemma {:induction false} RunIsTraced(
    c: Config, initialCash: real, states: seq<Exec>, ops: seq<Op>, n: nat)
    requires IsRun(c, initialCash, states, ops) && n <= |ops|
    requires forall i :: 0 <= i < n ==> Timely(ops[i]) && !Step(c, states[i], ops[i]).1.Faulted?
    ensures Traced(c, states[n].ledger)
    decreases n
  {
    hide Step, Allowed, Traced, Agree;
    if n == 0 {
      StartIsTraced(c, initialCash);
    } else {
      RunIsTraced(c, initialCash, states, ops, n - 1);
      EngineAndLedgerAgree(c, initialCash, states, ops, n - 1, true);
      StepStaysTraced(c, states[n - 1], true, ops[n - 1]);
    }
  }

  // ----- the rebuilt engine

  /** A tracked order as the engine holds it; strategies are not restored. */
  function Restored(id: string, t: L.Tracked): LiveOrder {
    LiveOrder(id, t.order.place, t.submittedMs, t.activeAtMs, None)
  }

  function Id(l: L.State, i: nat): string {
    Numbered(l.idPrefix, i)
  }

  ghost predicate OpenMaker(l: L.State, i: nat) {
    Id(l, i) in l.orders && l.orders[Id(l, i)].order.place.postOnly
  }

  ghost predicate OpenTaker(l: L.State, i: nat) {
    Id(l, i) in l.orders && !l.orders[Id(l, i)].order.place.postOnly
  }

  /** The open takers among the first `n` placements, in order. */
  ghost function OpenTakers(l: L.State, n: nat): seq<LiveOrder> {
    if n == 0 then []
    else
      OpenTakers(l, n - 1) +
      (if OpenTaker(l, n - 1) then [Restored(Id(l, n - 1), l.orders[Id(l, n - 1)])] else [])
  }

  ghost predicate OpenBefore(l: L.State, count: nat, id: string) {
    exists i :: 0 <= i < count && id == Id(l, i) && OpenMaker(l, i)
  }

  /** The engine after the first `count` placements: their open orders, and nothing else. */
  ghost predicate RebuiltSoFar(l: L.State, e: Engine, count: nat) {
    e.nextId == count && e.pending == [] && e.delayed == OpenTakers(l, count) &&
    (forall token :: token in e.books ==> e.books[token].bids == [] && e.books[token].asks == []) &&
    (forall id :: id in e.resting <==> OpenBefore(l, count, id)) &&
    (forall id :: id in e.resting ==> id in l.orders && e.resting[id] == Restored(id, l.orders[id]))
  }

  // ----- exactly when a rebuild restores the ledger's orders

  /** A placement that is no longer open and whose closing shows its market an empty book. */
  ghost predicate Sweeps(c: Config, l: L.State, entry: L.Entry, i: nat) {
    c.latencyMs > 0 && entry.event.OrderPlaced? && !entry.event.order.place.postOnly && Id(l, i) !in l.orders
  }

  function SweepTime(c: Config, entry: L.Entry): Millis {
    SaturatingAdd(entry.timestampMs, c.latencyMs)
  }

  /** An open order that a book at `now` neither expires nor activates. */
  predicate Survives(t: L.Tracked, now: Millis) {
    !Expired(t.order.place, now) && (t.order.place.postOnly || now < t.activeAtMs)
  }

  /**
   * Re-submitting placement `i` does no harm: what remains of it, if it is open, is within the limits, and if it is
   * a closed taker the empty book at its activation time spares every open order placed earlier on its market.
   */
  ghost predicate StepSafe(c: Config, l: L.State, entry: L.Entry, i: nat) {
    && (Id(l, i) in l.orders ==> !c.violatesLimits(l.orders[Id(l, i)].order.place))
    && (Sweeps(c, l, entry, i) ==> Spared(l, i, TokenOf(entry.event.order.place), SweepTime(c, entry)))
  }

  ghost predicate Spared(l: L.State, i: nat, token: Token, now: Millis) {
    forall j :: 0 <= j < i && Id(l, j) in l.orders && TokenOf(l.orders[Id(l, j)].order.place) == token ==>
      Survives(l.orders[Id(l, j)], now)
  }

  /** What a caller can check of a ledger before rebuilding its engine. */
  ghost predicate Restorable(c: Config, l: L.State) {
    forall i :: 0 <= i < |Placements(l.entries)| ==> StepSafe(c, l, Placements(l.entries)[i], i)
  }

  /** No latency and no venue limits. */
  ghost predicate PlainConfig(c: Config) {
    c.latencyMs == 0 && forall order :: !c.violatesLimits(order)
  }

  /** Without latency and limits every ledger is restorable. */
  lemma PlainIsRestorable(c: Config, l: L.State)
    requires PlainConfig(c)
    ensures Restorable(c, l)
  {
  }

  // ----- the shape of open orders

  lemma OpenedByIth(c: Config, l: L.State, i: nat)
    requires Traced(c, l) && i < |Placements(l.entries)| && Id(l, i) in l.orders
    ensures Opened(c, l, Id(l, i), Placements(l.entries)[i], i)
  {
    var id, ps := Id(l, i), Placements(l.entries);
    var j :| 0 <= j < |ps| && Opened(c, l, id, ps[j], j);
    NumberedInjective(l.idPrefix, i, j);
  }

  /** An open order at rest is a maker, or a taker waiting out the latency; it was not expired when placed. */
  lemma OpenShape(c: Config, l: L.State, i: nat)
    requires Traced(c, l) && L.AtRest(l) && i < |Placements(l.entries)| && Id(l, i) in l.orders
    ensures var t := l.orders[Id(l, i)];
      && t.state == (if t.order.place.postOnly then L.Resting else L.Delayed)
      && (!t.order.place.postOnly ==> c.latencyMs > 0)
      && Survives(t, I64_MIN)
  {
    hide L.AtRest;
    OpenedByIth(c, l, i);
    assert OnRecord(c, l, Placements(l.entries)[i], i);
    NotImmediate(l, Id(l, i));
  }

  lemma NotImmediate(l: L.State, id: string)
    requires L.AtRest(l) && id in l.orders
    ensures l.orders[id].state != L.Immediate
  {
  }

  lemma {:induction false} OpenTakersMembers(l: L.State, n: nat, o: LiveOrder)
    requires o in OpenTakers(l, n)
    ensures exists j :: 0 <= j < n && OpenTaker(l, j) && o == Restored(Id(l, j), l.orders[Id(l, j)])
  {
    if !(OpenTaker(l, n - 1) && o == Restored(Id(l, n - 1), l.orders[Id(l, n - 1)])) {
      OpenTakersMembers(l, n - 1, o);
    }
  }

  lemma {:induction false} OpenTakersHave(l: L.State, n: nat, j: nat)
    requires j < n && OpenTaker(l, j)
    ensures Restored(Id(l, j), l.orders[Id(l, j)]) in OpenTakers(l, n)
  {
    if j < n - 1 {
      OpenTakersHave(l, n - 1, j);
    }
  }

  // ----- empty books

  lemma NoActivation(c: Config, token: Token, now: Millis, delayed: seq<LiveOrder>)
    ensures ActivationFills(c, token, EmptyBook(now), delayed) == []
    decreases |delayed|
  {
    if delayed != [] {
      NoActivation(c, token, now, delayed[..|delayed| - 1]);
      var last := delayed[|delayed| - 1];
      assert Against(EmptyBook(now), last.order.side) == [];
    }
  }

  /** An empty book fills nothing: it only expires and activates. */
  lemma EmptySweep(c: Config, e: Engine, token: Token, now: Millis)
    ensures BookUpdated(c, e, token, EmptyBook(now), []) == Engine(
      e.books[token := EmptyBook(now)], UnexpiredResting(e.resting, token, now),
      StillDelayed(UnexpiredDelayed(e.delayed, token, now), token, now), e.pending, e.nextId)
  {
    hide ActivationFills, TakerFill, MakerFill;
    var resting := UnexpiredResting(e.resting, token, now);
    NoActivation(c, token, now, UnexpiredDelayed(e.delayed, token, now));
    assert Swept(c, token, EmptyBook(now), resting) == resting;
    assert SweepFills(c, EmptyBook(now), resting, []) == [];
  }

  /** A live order that a book at `now` leaves alone. */
  predicate Stays(o: LiveOrder, token: Token, now: Millis) {
    !Dropped(o, token, now) && !Matured(o, token, now)
  }

  lemma {:induction false} NoneFiltered(delayed: seq<LiveOrder>, token: Token, now: Millis)
    requires forall o :: o in delayed ==> Stays(o, token, now)
    ensures UnexpiredDelayed(delayed, token, now) == delayed && StillDelayed(delayed, token, now) == delayed
    decreases |delayed|
  {
    hide UnexpiredDelayed, StillDelayed, AreUnexpired, AreImmature, Stays;
    if delayed == [] {
      NothingFiltered(token, now);
    } else {
      var n := |delayed| - 1;
      assert delayed[n] in delayed;
      NoneFiltered(delayed[..n], token, now);
      OneUnfiltered(delayed, token, now);
      assert delayed == delayed[..n] + [delayed[n]];
    }
  }

  lemma NothingFiltered(token: Token, now: Millis)
    ensures UnexpiredDelayed([], token, now) == [] && StillDelayed([], token, now) == []
  {
  }

  lemma OneUnfiltered(delayed: seq<LiveOrder>, token: Token, now: Millis)
    requires delayed != [] && Stays(delayed[|delayed| - 1], token, now)
    ensures var n := |delayed| - 1;
      && UnexpiredDelayed(delayed, token, now) == UnexpiredDelayed(delayed[..n], token, now) + [delayed[n]]
      && StillDelayed(delayed, token, now) == StillDelayed(delayed[..n], token, now) + [delayed[n]]
  {
  }

  /** A sweep that spares every open order so far changes no order. */
  lemma SparedSweep(c: Config, l: L.State, e: Engine, count: nat, token: Token, now: Millis)
    requires RebuiltSoFar(l, e, count) && Spared(l, count, token, now)
    ensures BookUpdated(c, e, token, EmptyBook(now), []) == e.(books := e.books[token := EmptyBook(now)])
  {
    hide BookUpdated, OpenTakers;
    EmptySweep(c, e, token, now);
    forall id | id in e.resting ensures !Dropped(e.resting[id], token, now) {
      assert OpenBefore(l, count, id);
      var i :| 0 <= i < count && id == Id(l, i) && OpenMaker(l, i);
    }
    assert UnexpiredResting(e.resting, token, now) == e.resting;
    forall o | o in e.delayed ensures Stays(o, token, now) {
      OpenTakersMembers(l, count, o);
      var j :| 0 <= j < count && OpenTaker(l, j) && o == Restored(Id(l, j), l.orders[Id(l, j)]);
    }
    NoneFiltered(e.delayed, token, now);
  }

  lemma EarliestSpares(c: Config, l: L.State, count: nat, token: Token)
    requires Traced(c, l) && L.AtRest(l) && count <= |Placements(l.entries)|
    ensures Spared(l, count, token, I64_MIN)
  {
    hide Traced, L.AtRest, Survives;
    forall j | 0 <= j < count && Id(l, j) in l.orders ensures Survives(l.orders[Id(l, j)], I64_MIN) {
      OpenShape(c, l, j);
    }
  }

  // ----- one placement submitted again

  /** The next id was not minted before. */
  lemma NextIdUnused(l: L.State, e: Engine, count: nat)
    requires RebuiltSoFar(l, e, count)
    ensures Id(l, count) !in e.resting && forall o :: o in e.delayed ==> o.orderId != Id(l, count)
  {
    hide OpenTakers;
    forall i | 0 <= i < count ensures Id(l, i) != Id(l, count) {
      NumberedInjective(l.idPrefix, i, count);
    }
    forall o | o in e.delayed ensures o.orderId != Id(l, count) {
      OpenTakersMembers(l, count, o);
    }
  }

  /** The engine with one more placement dealt with. */
  ghost function WithNext(l: L.State, e: Engine, books: map<Token, OrderBook>, count: nat): Engine {
    var id := Id(l, count);
    Engine(
      books,
      if OpenMaker(l, count) then e.resting[id := Restored(id, l.orders[id])] else e.resting,
      if OpenTaker(l, count) then e.delayed + [Restored(id, l.orders[id])] else e.delayed,
      [], count + 1)
  }

  lemma OneMoreRestored(l: L.State, e: Engine, count: nat, books: map<Token, OrderBook>)
    requires RebuiltSoFar(l, e, count)
    requires forall token :: token in books ==> books[token].bids == [] && books[token].asks == []
    ensures RebuiltSoFar(l, WithNext(l, e, books, count), count + 1)
  {
    hide OpenBefore, OpenTakers, OpenMaker, OpenTaker;
    NextIdUnused(l, e, count);
    OneMoreTaker(l, count);
    MakerIsOpen(l, count);
    forall x ensures OpenBefore(l, count + 1, x) <==> (x == Id(l, count) && OpenMaker(l, count)) || OpenBefore(l, count, x) {
      OneMoreMaker(l, count, x);
    }
  }

  lemma MakerIsOpen(l: L.State, i: nat)
    ensures OpenMaker(l, i) || OpenTaker(l, i) ==> Id(l, i) in l.orders
  {
  }

  lemma OneMoreTaker(l: L.State, count: nat)
    ensures OpenTakers(l, count + 1) == OpenTakers(l, count) +
      (if OpenTaker(l, count) then [Restored(Id(l, count), l.orders[Id(l, count)])] else [])
  {
  }

  lemma OneMoreMaker(l: L.State, count: nat, id: string)
    ensures OpenBefore(l, count + 1, id) <==> (id == Id(l, count) && OpenMaker(l, count)) || OpenBefore(l, count, id)
  {
    if OpenBefore(l, count + 1, id) {
      var i :| 0 <= i < count + 1 && id == Id(l, i) && OpenMaker(l, i);
    }
    if OpenBefore(l, count, id) {
      var i :| 0 <= i < count && id == Id(l, i) && OpenMaker(l, i);
    }
  }

  /** Everything a step starts from. */
  ghost predicate Ready(c: Config, l: L.State, e: Engine, count: nat) {
    && Traced(c, l) && L.AtRest(l) && l.idPrefix == c.idPrefix
    && count < |Placements(l.entries)| && RebuiltSoFar(l, e, count)
    && OnRecord(c, l, Placements(l.entries)[count], count)
  }

  /** The order that is submitted again: the recorded one, with what remains of it. */
  ghost function Again(l: L.State, entry: L.Entry, i: nat): PlaceOrder
    requires entry.event.OrderPlaced?
  {
    var place := entry.event.order.place;
    if Id(l, i) in l.orders then place.(qty := l.orders[Id(l, i)].order.place.qty) else place
  }

  lemma AgainIsRemainder(c: Config, l: L.State, i: nat)
    requires Traced(c, l) && i < |Placements(l.entries)| && OnRecord(c, l, Placements(l.entries)[i], i)
    ensures var entry := Placements(l.entries)[i];
      var order := Again(l, entry, i);
      && (Id(l, i) in l.orders ==> order == l.orders[Id(l, i)].order.place && Acknowledged(l, entry))
      && (Id(l, i) in l.orders ==> l.orders[Id(l, i)].submittedMs == entry.timestampMs)
      && (Id(l, i) in l.orders ==> l.orders[Id(l, i)].activeAtMs == SweepTime(c, entry))
      && !Expired(order, entry.timestampMs)
      && (Id(l, i) !in l.orders ==> !c.violatesLimits(order))
  {
    hide PlacementsTraced;
    if Id(l, i) in l.orders {
      OpenedByIth(c, l, i);
    }
  }

  lemma MakerResubmitted(c: Config, l: L.State, e: Engine, count: nat)
    requires Ready(c, l, e, count) && StepSafe(c, l, Placements(l.entries)[count], count)
    requires Placements(l.entries)[count].event.order.place.postOnly
    ensures var entry := Placements(l.entries)[count];
      Resubmitted(c, l, e, entry) == Some(
        WithNext(l, e, e.books[TokenOf(entry.event.order.place) := EmptyBook(I64_MIN)], count))
  {
    hide BookUpdated, Traced, L.AtRest, TakerFill, Spared, OpenTakers;
    var entry, id := Placements(l.entries)[count], Id(l, count);
    var order := Again(l, entry, count);
    var token := TokenOf(order);
    AgainIsRemainder(c, l, count);
    EarliestSpares(c, l, count, token);
    SparedSweep(c, l, e, count, token, I64_MIN);
    NextIdUnused(l, e, count);
    var shown := e.(books := e.books[token := EmptyBook(I64_MIN)]);
    var o := NewOrder(c, shown, order, None, entry.timestampMs);
    assert Submitted(c, shown, order, None, entry.timestampMs)
        == (shown.(nextId := count + 1, resting := e.resting[id := o]), Some(id));
    if id !in l.orders {
      assert e.resting[id := o] - {id} == e.resting;
    }
  }

  /** Without latency a taker never stays open and finds nothing to trade against. */
  lemma TakerResubmitted(c: Config, l: L.State, e: Engine, count: nat)
    requires Ready(c, l, e, count) && c.latencyMs <= 0
    requires !Placements(l.entries)[count].event.order.place.postOnly
    ensures Resubmitted(c, l, e, Placements(l.entries)[count]) == Some(WithNext(l, e, e.books, count))
  {
    hide BookUpdated, Traced, L.AtRest, OpenTakers;
    var entry, id := Placements(l.entries)[count], Id(l, count);
    AgainIsRemainder(c, l, count);
    assert id !in l.orders by {
      if id in l.orders {
        OpenShape(c, l, count);
      }
    }
    var order := entry.event.order.place;
    var token := TokenOf(order);
    if token in e.books {
      assert Against(e.books[token], order.side) == [];
    }
  }

  lemma LastIsFound(delayed: seq<LiveOrder>, o: LiveOrder)
    requires forall x :: x in delayed ==> x.orderId != o.orderId
    ensures PositionOf(delayed + [o], o.orderId) == |delayed|
  {
    var all := delayed + [o];
    assert forall i :: 0 <= i < |delayed| ==> all[i] in delayed;
    assert all[|delayed|].orderId == o.orderId;
  }

  /** With latency a taker waits; closing it shows its market an empty book. */
  lemma DelayedResubmitted(c: Config, l: L.State, e: Engine, count: nat)
    requires Ready(c, l, e, count) && StepSafe(c, l, Placements(l.entries)[count], count) && c.latencyMs > 0
    requires !Placements(l.entries)[count].event.order.place.postOnly
    ensures var entry := Placements(l.entries)[count];
      Resubmitted(c, l, e, entry) == Some(WithNext(l, e,
        if Id(l, count) in l.orders then e.books
        else e.books[TokenOf(entry.event.order.place) := EmptyBook(SweepTime(c, entry))], count))
  {
    hide BookUpdated, Traced, L.AtRest, Spared, OpenTakers, TakerFill;
    var entry, id := Placements(l.entries)[count], Id(l, count);
    var order := Again(l, entry, count);
    AgainIsRemainder(c, l, count);
    NextIdUnused(l, e, count);
    var o := NewOrder(c, e, order, None, entry.timestampMs);
    var submitted := e.(nextId := count + 1, delayed := e.delayed + [o]);
    assert Submitted(c, e, order, None, entry.timestampMs) == (submitted, Some(id));
    if id !in l.orders {
      LastIsFound(e.delayed, o);
      var cancelled := e.(nextId := count + 1);
      assert submitted.delayed[..|e.delayed|] + submitted.delayed[|e.delayed| + 1..] == e.delayed;
      assert Cancelled(submitted, id).0 == cancelled;
      SweepCommutes(c, l, e, count, TokenOf(order), SweepTime(c, entry));
    }
  }

  lemma SweepCommutes(c: Config, l: L.State, e: Engine, count: nat, token: Token, now: Millis)
    requires RebuiltSoFar(l, e, count) && Spared(l, count, token, now)
    ensures BookUpdated(c, e.(nextId := count + 1), token, EmptyBook(now), [])
         == e.(nextId := count + 1, books := e.books[token := EmptyBook(now)])
  {
    hide BookUpdated, Spared;
    SparedSweep(c, l, e, count, token, now);
    EmptySweep(c, e, token, now);
    EmptySweep(c, e.(nextId := count + 1), token, now);
  }

  /** A safe step restores the next placement if it is still open and leaves no trace otherwise. */
  lemma ResubmitStep(c: Config, l: L.State, e: Engine, count: nat)
    requires Ready(c, l, e, count) && StepSafe(c, l, Placements(l.entries)[count], count)
    ensures Resubmitted(c, l, e, Placements(l.entries)[count]).Some?
    ensures RebuiltSoFar(l, Resubmitted(c, l, e, Placements(l.entries)[count]).value, count + 1)
  {
    hide Resubmitted, Traced, L.AtRest, StepSafe, OpenTakers, WithNext;
    var entry := Placements(l.entries)[count];
    var token := TokenOf(entry.event.order.place);
    if entry.event.order.place.postOnly {
      MakerResubmitted(c, l, e, count);
      OneMoreRestored(l, e, count, e.books[token := EmptyBook(I64_MIN)]);
    } else if c.latencyMs <= 0 {
      TakerResubmitted(c, l, e, count);
      OneMoreRestored(l, e, count, e.books);
    } else {
      DelayedResubmitted(c, l, e, count);
      OneMoreRestored(l, e, count, e.books);
      OneMoreRestored(l, e, count, e.books[token := EmptyBook(SweepTime(c, entry))]);
    }
  }

  // ----- the whole rebuild

  lemma {:induction false} PlacementsPrefix(entries: seq<L.Entry>, n: nat)
    requires n <= |entries|
    ensures Placements(entries[..n]) <= Placements(entries)
    decreases |entries| - n
  {
    if n == |entries| {
      assert entries[..n] == entries;
    } else {
      assert entries[..n + 1] == entries[..n] + [entries[n]];
      PlacementsGrow(entries[..n], entries[n]);
      PlacementsPrefix(entries, n + 1);
    }
  }

  /** How many placements are among the first `n` entries. */
  ghost function CountIn(l: L.State, n: nat): nat
    requires n <= |l.entries|
  {
    |Placements(l.entries[..n])|
  }

  /** What the next entry adds to a rebuild. */
  lemma NextEntryIs(c: Config, l: L.State, n: nat)
    requires n < |l.entries|
    ensures var entry, k := l.entries[n], CountIn(l, n);
      if entry.event.OrderPlaced? then
        && k < |Placements(l.entries)| && Placements(l.entries)[k] == entry && CountIn(l, n + 1) == k + 1
        && Replayed(c, l, l.entries[..n + 1]) ==
          (match Replayed(c, l, l.entries[..n]) case None => None case Some(e) => Resubmitted(c, l, e, entry))
      else CountIn(l, n + 1) == k && Replayed(c, l, l.entries[..n + 1]) == Replayed(c, l, l.entries[..n])
  {
    hide Resubmitted;
    var before := l.entries[..n];
    assert l.entries[..n + 1] == before + [l.entries[n]];
    assert l.entries[..n + 1][..n] == before;
    PlacementsGrow(before, l.entries[n]);
    PlacementsPrefix(l.entries, n + 1);
  }

  lemma EmptyIsRebuilt(l: L.State)
    ensures RebuiltSoFar(l, EMPTY_ENGINE, 0)
  {
  }

  lemma ReadyAt(c: Config, l: L.State, e: Engine, k: nat)
    requires Traced(c, l) && L.AtRest(l) && l.idPrefix == c.idPrefix
    requires k < |Placements(l.entries)| && RebuiltSoFar(l, e, k)
    ensures Ready(c, l, e, k)
  {
    hide OrdersTraced, RebuiltSoFar, L.AtRest;
  }

  ghost predicate SafeFirst(c: Config, l: L.State, count: nat) {
    forall i :: 0 <= i < count && i < |Placements(l.entries)| ==> StepSafe(c, l, Placements(l.entries)[i], i)
  }

  lemma {:induction false} ReplayedSoFar(c: Config, l: L.State, n: nat)
    requires Traced(c, l) && L.AtRest(l) && l.idPrefix == c.idPrefix && n <= |l.entries|
    requires SafeFirst(c, l, CountIn(l, n))
    ensures Replayed(c, l, l.entries[..n]).Some?
    ensures RebuiltSoFar(l, Replayed(c, l, l.entries[..n]).value, CountIn(l, n))
    decreases n
  {
    hide Resubmitted, Traced, L.AtRest, RebuiltSoFar, StepSafe, Ready;
    if n == 0 {
      EmptyIsRebuilt(l);
    } else {
      hide Replayed, CountIn;
      NextEntryIs(c, l, n - 1);
      ReplayedSoFar(c, l, n - 1);
      if l.entries[n - 1].event.OrderPlaced? {
        var e := Replayed(c, l, l.entries[..n - 1]).value;
        ReadyAt(c, l, e, CountIn(l, n - 1));
        ResubmitStep(c, l, e, CountIn(l, n - 1));
      }
    }
  }

  /** Exactly the open orders of the ledger, under the ledger's counter. */
  ghost predicate Restores(l: L.State, e: Engine) {
    e.nextId == l.nextOrderId && e.pending == [] && e.delayed == OpenTakers(l, l.nextOrderId) &&
    (forall id :: id in e.resting <==> id in l.orders && l.orders[id].order.place.postOnly) &&
    (forall id :: id in e.resting ==> e.resting[id] == Restored(id, l.orders[id]))
  }

  lemma RebuiltIsRestored(c: Config, l: L.State, e: Engine)
    requires Traced(c, l) && RebuiltSoFar(l, e, |Placements(l.entries)|)
    ensures Restores(l, e)
  {
    hide OpenTakers, PlacementsTraced;
    var ps := Placements(l.entries);
    assert |ps| == l.nextOrderId by { CounterIsCount(c, l); }
    forall id | id in l.orders && l.orders[id].order.place.postOnly ensures id in e.resting {
      var i :| 0 <= i < |ps| && Opened(c, l, id, ps[i], i);
      assert id == Id(l, i) && OpenMaker(l, i);
      assert OpenBefore(l, |ps|, id);
    }
  }

  lemma CounterIsCount(c: Config, l: L.State)
    requires Traced(c, l)
    ensures |Placements(l.entries)| == l.nextOrderId
  {
  }

  // ----- what a rebuild has lost it never regains

  ghost predicate Absent(e: Engine, id: string) {
    id !in e.resting && forall o :: o in e.delayed ==> o.orderId != id
  }

  /** Orders only leave; no id is minted. */
  ghost predicate Thins(e: Engine, f: Engine) {
    f.nextId == e.nextId && forall id :: Absent(e, id) ==> Absent(f, id)
  }

  lemma SweepThins(c: Config, e: Engine, token: Token, now: Millis)
    ensures Thins(e, BookUpdated(c, e, token, EmptyBook(now), []))
  {
    hide BookUpdated;
    EmptySweep(c, e, token, now);
  }

  lemma CancelThins(e: Engine, id: string)
    ensures Thins(e, Cancelled(e, id).0)
  {
    var i := PositionOf(e.delayed, id);
    if i < |e.delayed| {
      assert forall o :: o in e.delayed[..i] + e.delayed[i + 1..] ==> o in e.delayed;
    }
  }

  lemma ThinsThrough(e: Engine, f: Engine, g: Engine)
    requires Thins(e, f) && Thins(f, g)
    ensures Thins(e, g)
  {
  }

  lemma CloseThins(c: Config, e: Engine, order: PlaceOrder, id: Option<string>, submittedMs: Millis)
    ensures Thins(e, Closed(c, e, order, id, submittedMs))
  {
    hide BookUpdated, Cancelled, Thins;
    var cancelled := if id.Some? then Cancelled(e, id.value).0 else e;
    assert Thins(e, cancelled) by {
      if id.Some? {
        CancelThins(e, id.value);
      } else {
        ThinsSelf(e);
      }
    }
    var now := SaturatingAdd(submittedMs, c.latencyMs);
    SweepThins(c, cancelled, TokenOf(order), now);
    ThinsThrough(e, cancelled, BookUpdated(c, cancelled, TokenOf(order), EmptyBook(now), []));
  }

  lemma ThinsSelf(e: Engine)
    ensures Thins(e, e)
  {
  }

  lemma SubmitMints(c: Config, e: Engine, order: PlaceOrder, now: Millis)
    ensures var f := Submitted(c, e, order, None, now).0;
      && e.nextId <= f.nextId <= e.nextId + 1
      && forall id :: Absent(e, id) && id != Numbered(c.idPrefix, e.nextId) ==> Absent(f, id)
  {
    hide TakerFill, Touches, Expired;
  }

  /** A step mints at most one id and brings back nothing but it. */
  lemma StepMints(c: Config, l: L.State, e: Engine, entry: L.Entry)
    requires entry.event.OrderPlaced? && Resubmitted(c, l, e, entry).Some?
    ensures var f := Resubmitted(c, l, e, entry).value;
      && e.nextId <= f.nextId <= e.nextId + 1
      && forall id :: Absent(e, id) && id != Numbered(c.idPrefix, e.nextId) ==> Absent(f, id)
  {
    hide BookUpdated, Submitted, Closed, Absent;
    var expected := l.placements[entry.eventId].expectedOrderId;
    var recorded := entry.event.order.place;
    var order := if expected in l.orders then recorded.(qty := l.orders[expected].order.place.qty) else recorded;
    var shown := if order.postOnly then BookUpdated(c, e, TokenOf(order), EmptyBook(I64_MIN), []) else e;
    SweepThins(c, e, TokenOf(order), I64_MIN);
    SubmitMints(c, shown, order, entry.timestampMs);
    var (submitted, id) := Submitted(c, shown, order, None, entry.timestampMs);
    CloseThins(c, submitted, order, id, entry.timestampMs);
  }

  /** From entry `n` to entry `m` a rebuild mints at most one id per placement and keeps lost orders lost. */
  lemma {:induction false} LaterSteps(c: Config, l: L.State, n: nat, m: nat)
    requires n <= m <= |l.entries| && l.idPrefix == c.idPrefix && Replayed(c, l, l.entries[..m]).Some?
    ensures Replayed(c, l, l.entries[..n]).Some? && CountIn(l, n) <= CountIn(l, m)
    ensures var e, f := Replayed(c, l, l.entries[..n]).value, Replayed(c, l, l.entries[..m]).value;
      && e.nextId <= f.nextId && f.nextId - e.nextId <= CountIn(l, m) - CountIn(l, n)
      && forall j: nat :: j < e.nextId && Absent(e, Id(l, j)) ==> Absent(f, Id(l, j))
    decreases m
  {
    hide Replayed, Resubmitted, Absent, CountIn;
    if n < m {
      NextEntryIs(c, l, m - 1);
      LaterSteps(c, l, n, m - 1);
      if l.entries[m - 1].event.OrderPlaced? {
        var e, f := Replayed(c, l, l.entries[..n]).value, Replayed(c, l, l.entries[..m - 1]).value;
        var g := Replayed(c, l, l.entries[..m]).value;
        StepMints(c, l, f, l.entries[m - 1]);
        forall j: nat | j < e.nextId && Absent(e, Id(l, j)) ensures Absent(g, Id(l, j)) {
          NumberedInjective(l.idPrefix, j, f.nextId);
        }
      }
    }
  }

  // ----- a rebuild that succeeds invents nothing

  /** Every order of the engine is the ledger's, under the ledger's id; ids not yet minted are unused. */
  ghost predicate OnlyOpen(c: Config, l: L.State, e: Engine) {
    && (forall id :: id in e.resting ==> id in l.orders && e.resting[id] == Restored(id, l.orders[id]))
    && (forall o :: o in e.delayed ==> o.orderId in l.orders && o == Restored(o.orderId, l.orders[o.orderId]))
    && (forall k: nat :: k >= e.nextId ==> Absent(e, Numbered(c.idPrefix, k)))
  }

  /** Orders only leave, and those that stay do not change. */
  ghost predicate Within(f: Engine, e: Engine) {
    && (forall id :: id in f.resting ==> id in e.resting && f.resting[id] == e.resting[id])
    && (forall o :: o in f.delayed ==> o in e.delayed)
  }

  lemma SweptWithin(c: Config, e: Engine, token: Token, now: Millis)
    ensures var f := BookUpdated(c, e, token, EmptyBook(now), []); Within(f, e) && f.nextId == e.nextId
  {
    hide BookUpdated;
    EmptySweep(c, e, token, now);
  }

  lemma WithinOnlyOpen(c: Config, l: L.State, f: Engine, e: Engine)
    requires Within(f, e) && OnlyOpen(c, l, e) && f.nextId >= e.nextId
    ensures OnlyOpen(c, l, f)
  {
  }

  /** An order that is submitted and closed again leaves nothing behind. */
  lemma ClosedWithin(c: Config, e: Engine, order: PlaceOrder, now: Millis)
    requires Absent(e, Numbered(c.idPrefix, e.nextId))
    ensures var (submitted, id) := Submitted(c, e, order, None, now);
      var f := Closed(c, submitted, order, id, now);
      Within(f, e) && f.nextId >= e.nextId
  {
    hide BookUpdated, TakerFill, Touches;
    var (submitted, id) := Submitted(c, e, order, None, now);
    var o := NewOrder(c, e, order, None, now);
    var cancelled := if id.Some? then Cancelled(submitted, id.value).0 else submitted;
    assert Within(cancelled, e) by {
      if id.Some? && submitted.delayed != e.delayed {
        LastIsFound(e.delayed, o);
        assert submitted.delayed == e.delayed + [o];
        assert submitted.delayed[..|e.delayed|] + submitted.delayed[|e.delayed| + 1..] == e.delayed;
      }
    }
    SweptWithin(c, cancelled, TokenOf(order), SaturatingAdd(now, c.latencyMs));
  }

  /** An open order that is submitted again is the one new order, under its own id. */
  lemma AddedOnlyOpen(c: Config, l: L.State, e: Engine, order: PlaceOrder, now: Millis, id: string)
    requires OnlyOpen(c, l, e) && id in l.orders
    requires Restored(id, l.orders[id]) == LiveOrder(id, order, now, SaturatingAdd(now, c.latencyMs), None)
    requires Submitted(c, e, order, None, now).1 in {None, Some(id)}
    ensures OnlyOpen(c, l, Submitted(c, e, order, None, now).0)
  {
    hide BookUpdated, TakerFill, Touches;
    var f := Submitted(c, e, order, None, now).0;
    SubmitMints(c, e, order, now);
    forall k: nat | k >= f.nextId ensures Absent(f, Numbered(c.idPrefix, k)) {
      if f.nextId > e.nextId {
        NumberedInjective(c.idPrefix, k, e.nextId);
      }
    }
  }

  /** An open order either gets its own id again or none: any other is reported. */
  lemma KeepsItsId(c: Config, l: L.State, e: Engine, count: nat)
    requires Traced(c, l) && count < |Placements(l.entries)| && OnRecord(c, l, Placements(l.entries)[count], count)
    requires Id(l, count) in l.orders && Resubmitted(c, l, e, Placements(l.entries)[count]).Some?
    ensures var entry := Placements(l.entries)[count];
      var order := Again(l, entry, count);
      var shown := if order.postOnly then BookUpdated(c, e, TokenOf(order), EmptyBook(I64_MIN), []) else e;
      Submitted(c, shown, order, None, entry.timestampMs).1 in {None, Some(Id(l, count))}
  {
    hide BookUpdated, Submitted, Closed, Traced;
    AgainIsRemainder(c, l, count);
  }

  lemma ResubmitInventsNothing(c: Config, l: L.State, e: Engine, count: nat)
    requires Traced(c, l) && OnlyOpen(c, l, e) && count < |Placements(l.entries)|
    requires OnRecord(c, l, Placements(l.entries)[count], count)
    requires Resubmitted(c, l, e, Placements(l.entries)[count]).Some?
    ensures OnlyOpen(c, l, Resubmitted(c, l, e, Placements(l.entries)[count]).value)
  {
    hide BookUpdated, Submitted, Closed, Traced, OnlyOpen, Within;
    var entry, id := Placements(l.entries)[count], Id(l, count);
    var order := Again(l, entry, count);
    AgainIsRemainder(c, l, count);
    var shown := if order.postOnly then BookUpdated(c, e, TokenOf(order), EmptyBook(I64_MIN), []) else e;
    SweptWithin(c, e, TokenOf(order), I64_MIN);
    if order.postOnly {
      WithinOnlyOpen(c, l, shown, e);
    }
    if id in l.orders {
      KeepsItsId(c, l, e, count);
      AddedOnlyOpen(c, l, shown, order, entry.timestampMs, id);
    } else {
      NextIsAbsent(c, l, shown);
      ClosedWithin(c, shown, order, entry.timestampMs);
      var (submitted, minted) := Submitted(c, shown, order, None, entry.timestampMs);
      WithinOnlyOpen(c, l, Closed(c, submitted, order, minted, entry.timestampMs), shown);
    }
  }

  lemma NextIsAbsent(c: Config, l: L.State, e: Engine)
    requires OnlyOpen(c, l, e)
    ensures Absent(e, Numbered(c.idPrefix, e.nextId))
  {
  }

  lemma OnRecordAt(c: Config, l: L.State, k: nat)
    requires Traced(c, l) && k < |Placements(l.entries)|
    ensures OnRecord(c, l, Placements(l.entries)[k], k)
  {
  }

  lemma {:induction false} ReplayInventsNothing(c: Config, l: L.State, n: nat)
    requires Traced(c, l) && n <= |l.entries| && Replayed(c, l, l.entries[..n]).Some?
    ensures OnlyOpen(c, l, Replayed(c, l, l.entries[..n]).value)
    decreases n
  {
    hide Resubmitted, Traced, OnlyOpen, CountIn;
    if n == 0 {
      NothingOpenYet(c, l);
    } else {
      hide Replayed;
      NextEntryIs(c, l, n - 1);
      ReplayInventsNothing(c, l, n - 1);
      if l.entries[n - 1].event.OrderPlaced? {
        var k := CountIn(l, n - 1);
        OnRecordAt(c, l, k);
        ResubmitInventsNothing(c, l, Replayed(c, l, l.entries[..n - 1]).value, k);
      }
    }
  }

  lemma NothingOpenYet(c: Config, l: L.State)
    ensures OnlyOpen(c, l, EMPTY_ENGINE)
  {
  }

  /**
   * Whatever the latency and the limits, a rebuild that succeeds holds only orders that the ledger has open, under
   * their own ids, with their terms and remainders; what could end up under another id is reported instead.
   */
  lemma RebuildInventsNothing(c: Config, l: L.State)
    requires Traced(c, l) && RebuiltEngine(c, l).Some?
    ensures var e := RebuiltEngine(c, l).value;
      && (forall id :: id in e.resting ==> id in l.orders && e.resting[id] == Restored(id, l.orders[id]))
      && (forall o :: o in e.delayed ==> o.orderId in l.orders && o == Restored(o.orderId, l.orders[o.orderId]))
  {
    hide Replayed, Traced;
    assert l.entries[..|l.entries|] == l.entries;
    ReplayInventsNothing(c, l, |l.entries|);
  }

  /** A remainder beyond the limits mints nothing. */
  lemma UnsafeLimit(c: Config, l: L.State, e: Engine, k: nat)
    requires Ready(c, l, e, k) && Resubmitted(c, l, e, Placements(l.entries)[k]).Some?
    requires Id(l, k) in l.orders && c.violatesLimits(l.orders[Id(l, k)].order.place)
    ensures Resubmitted(c, l, e, Placements(l.entries)[k]).value.nextId == k
  {
    hide BookUpdated, Traced, L.AtRest, Closed;
    var entry := Placements(l.entries)[k];
    var order := Again(l, entry, k);
    AgainIsRemainder(c, l, k);
    SweepThins(c, e, TokenOf(order), I64_MIN);
  }

  /** A sweep that reaches an open order loses it. */
  lemma UnsafeSweep(c: Config, l: L.State, e: Engine, k: nat, j: nat)
    requires Ready(c, l, e, k)
    requires Sweeps(c, l, Placements(l.entries)[k], k) && j < k && Id(l, j) in l.orders
    requires var entry, t := Placements(l.entries)[k], l.orders[Id(l, j)];
      TokenOf(t.order.place) == TokenOf(entry.event.order.place) && !Survives(t, SweepTime(c, entry))
    ensures Resubmitted(c, l, e, Placements(l.entries)[k]).Some?
    ensures Absent(Resubmitted(c, l, e, Placements(l.entries)[k]).value, Id(l, j))
    ensures Resubmitted(c, l, e, Placements(l.entries)[k]).value.nextId == k + 1
  {
    hide BookUpdated, Traced, L.AtRest, OpenTakers, TakerFill;
    var entry, id := Placements(l.entries)[k], Id(l, k);
    var order := entry.event.order.place;
    AgainIsRemainder(c, l, k);
    NextIdUnused(l, e, k);
    var o := NewOrder(c, e, order, None, entry.timestampMs);
    var submitted := e.(nextId := k + 1, delayed := e.delayed + [o]);
    assert Submitted(c, e, order, None, entry.timestampMs) == (submitted, Some(id));
    LastIsFound(e.delayed, o);
    var cancelled := e.(nextId := k + 1);
    assert submitted.delayed[..|e.delayed|] + submitted.delayed[|e.delayed| + 1..] == e.delayed;
    assert Cancelled(submitted, id).0 == cancelled;
    SweepLoses(c, l, e, k, j, TokenOf(order), SweepTime(c, entry));
  }

  lemma SweepLoses(c: Config, l: L.State, e: Engine, k: nat, j: nat, token: Token, now: Millis)
    requires RebuiltSoFar(l, e, k) && j < k && Id(l, j) in l.orders
    requires TokenOf(l.orders[Id(l, j)].order.place) == token && !Survives(l.orders[Id(l, j)], now)
    ensures Absent(BookUpdated(c, e.(nextId := k + 1), token, EmptyBook(now), []), Id(l, j))
    ensures BookUpdated(c, e.(nextId := k + 1), token, EmptyBook(now), []).nextId == k + 1
  {
    hide BookUpdated, OpenTakers;
    EmptySweep(c, e.(nextId := k + 1), token, now);
    var f := BookUpdated(c, e.(nextId := k + 1), token, EmptyBook(now), []);
    if Id(l, j) in e.resting {
      assert OpenBefore(l, k, Id(l, j));
      var i :| 0 <= i < k && Id(l, j) == Id(l, i) && OpenMaker(l, i);
    }
    forall o | o in f.delayed ensures o.orderId != Id(l, j) {
      assert o in e.delayed;
      OpenTakersMembers(l, k, o);
      var i :| 0 <= i < k && OpenTaker(l, i) && o == Restored(Id(l, i), l.orders[Id(l, i)]);
    }
  }

  lemma RestoredIsPresent(c: Config, l: L.State, e: Engine, j: nat)
    requires Traced(c, l) && Restores(l, e) && j < l.nextOrderId && Id(l, j) in l.orders
    ensures !Absent(e, Id(l, j))
  {
    hide OpenTakers, Traced;
    if OpenTaker(l, j) {
      OpenTakersHave(l, l.nextOrderId, j);
    }
  }

  /** An unsafe step shows in the rebuilt engine. */
  lemma UnsafeShows(c: Config, l: L.State, n: nat)
    requires Traced(c, l) && L.AtRest(l) && l.idPrefix == c.idPrefix && n < |l.entries| && l.entries[n].event.OrderPlaced?
    requires RebuiltEngine(c, l).Some? && Restores(l, RebuiltEngine(c, l).value)
    requires Replayed(c, l, l.entries[..n]).Some?
    requires RebuiltSoFar(l, Replayed(c, l, l.entries[..n]).value, CountIn(l, n))
    ensures CountIn(l, n) < |Placements(l.entries)| && StepSafe(c, l, l.entries[n], CountIn(l, n))
  {
    hide Resubmitted, Traced, L.AtRest, RebuiltSoFar, Ready, Replayed, CountIn, Sweeps, Absent, Survives, Restores;
    var k, end := CountIn(l, n), |l.entries|;
    NextEntryIs(c, l, n);
    assert l.entries[..end] == l.entries;
    LaterSteps(c, l, n + 1, end);
    var e, f, g := Replayed(c, l, l.entries[..n]).value, Replayed(c, l, l.entries[..n + 1]).value, Replayed(c, l, l.entries).value;
    ReadyAt(c, l, e, k);
    assert CountIn(l, end) == l.nextOrderId == g.nextId by { RestoredCount(c, l, g); }
    if Id(l, k) in l.orders && c.violatesLimits(l.orders[Id(l, k)].order.place) {
      UnsafeLimit(c, l, e, k);
      assert false;
    }
    if Sweeps(c, l, l.entries[n], k) {
      var token, now := TokenOf(l.entries[n].event.order.place), SweepTime(c, l.entries[n]);
      forall j | 0 <= j < k && Id(l, j) in l.orders && TokenOf(l.orders[Id(l, j)].order.place) == token
        ensures Survives(l.orders[Id(l, j)], now)
      {
        if !Survives(l.orders[Id(l, j)], now) {
          UnsafeSweep(c, l, e, k, j);
          RestoredPresent(c, l, g, j);
          assert false;
        }
      }
    }
  }

  lemma RestoredCount(c: Config, l: L.State, g: Engine)
    requires Traced(c, l) && Restores(l, g.(pending := []))
    ensures CountIn(l, |l.entries|) == l.nextOrderId == g.nextId
  {
    hide OrdersTraced, OpenTakers;
    assert l.entries[..|l.entries|] == l.entries;
  }

  lemma RestoredPresent(c: Config, l: L.State, g: Engine, j: nat)
    requires Traced(c, l) && Restores(l, g.(pending := [])) && j < g.nextId && Id(l, j) in l.orders
    ensures !Absent(g, Id(l, j))
  {
    hide OpenTakers, Traced;
    RestoredIsPresent(c, l, g.(pending := []), j);
  }

  lemma {:induction false} SafeSoFar(c: Config, l: L.State, n: nat)
    requires Traced(c, l) && L.AtRest(l) && l.idPrefix == c.idPrefix && n <= |l.entries|
    requires RebuiltEngine(c, l).Some? && Restores(l, RebuiltEngine(c, l).value)
    ensures SafeFirst(c, l, CountIn(l, n))
    decreases n
  {
    hide Resubmitted, Traced, L.AtRest, RebuiltSoFar, Ready, Replayed, StepSafe, Restores, RebuiltEngine;
    if n > 0 {
      hide CountIn;
      SafeSoFar(c, l, n - 1);
      ReplayedSoFar(c, l, n - 1);
      NextEntryIs(c, l, n - 1);
      if l.entries[n - 1].event.OrderPlaced? {
        UnsafeShows(c, l, n - 1);
      }
    }
  }

  /**
   * The rebuilt engine holds exactly the ledger's open orders, makers resting and takers delayed, with their
   * remaining quantities and the ledger's next id, if and only if every placement can be submitted again safely.
   */
  lemma RebuildRestoresIff(c: Config, l: L.State)
    requires Traced(c, l) && L.AtRest(l) && l.idPrefix == c.idPrefix
    ensures (RebuiltEngine(c, l).Some? && Restores(l, RebuiltEngine(c, l).value)) <==> Restorable(c, l)
  {
    hide Replayed, L.AtRest, Traced, RebuiltSoFar, StepSafe, Restores;
    var end := |l.entries|;
    assert l.entries[..end] == l.entries;
    if Restorable(c, l) {
      ReplayedSoFar(c, l, end);
      var e := Replayed(c, l, l.entries).value;
      RebuiltIsRestored(c, l, e);
      NothingPendingIn(l, e, CountIn(l, end));
    }
    if RebuiltEngine(c, l).Some? && Restores(l, RebuiltEngine(c, l).value) {
      SafeSoFar(c, l, end);
    }
  }

  lemma NothingPendingIn(l: L.State, e: Engine, count: nat)
    requires RebuiltSoFar(l, e, count)
    ensures e.(pending := []) == e
  {
  }

  // ----- restart

  /**
   * Restart. After any run of timely orders whose ledger calls succeeded, reconstruction from the recorded entries
   * (repetitions allowed) succeeds; the engine rebuilt from it holds exactly the ledger's open orders if and only if
   * the ledger is restorable, which it always is without latency and venue limits. While no order was dropped
   * silently those are the live engine's own orders, strategies aside.
   */
  lemma RestartRestoresEngine(
    c: Config, initialCash: real, states: seq<Exec>, ops: seq<Op>, n: nat, es: seq<L.Entry>, lax: bool)
    requires IsRun(c, initialCash, states, ops) && n <= |ops|
    requires forall i :: 0 <= i < n ==> Timely(ops[i]) && !Step(c, states[i], ops[i]).1.Faulted?
    requires lax || forall i :: 0 <= i < n ==> !DropsAny(states[i], ops[i])
    requires L.WithRepetitions(es, states[n].ledger.entries)
    ensures var live, rebuilt := states[n], L.Reconstruct(es, c.idPrefix);
      && rebuilt.Rebuilt? && rebuilt.state.orders == live.ledger.orders
      && rebuilt.state.nextOrderId == live.ledger.nextOrderId && rebuilt.state.entries == live.ledger.entries
      && var engine := RebuiltEngine(c, rebuilt.state);
      && (PlainConfig(c) ==> Restorable(c, live.ledger))
      && ((engine.Some? && Restores(live.ledger, engine.value)) <==> Restorable(c, live.ledger))
      && (!lax && Restorable(c, live.ledger) ==> engine.Some? && SameOrders(engine.value, live.engine))
  {
    hide Step, Allowed, L.Reconstruct, L.Live, L.LeakyCall, RebuiltEngine, L.WithRepetitions, Traced, Restores, Restorable,
      SameOrders;
    var live := states[n];
    EngineAndLedgerAgree(c, initialCash, states, ops, n, lax);
    RunIsTraced(c, initialCash, states, ops, n);
    var calls := RunIsLive(c, initialCash, states, ops, n);
    L.ReplayEqualsLive(initialCash, c.idPrefix, calls, es);
    var l := L.Reconstruct(es, c.idPrefix).state;
    TracedFrame(c, live.ledger, l);
    RebuildRestoresIff(c, l);
    RestorableFrame(c, l, live.ledger);
    if PlainConfig(c) {
      PlainIsRestorable(c, live.ledger);
    }
    var engine := RebuiltEngine(c, l);
    if engine.Some? {
      RestoresFrame(l, live.ledger, engine.value);
      RestoresFrame(live.ledger, l, engine.value);
      if !lax && Restores(live.ledger, engine.value) {
        LiveOrdersRestored(c, live, engine.value);
      }
    }
  }

  /** The same orders, strategies aside, and the same next id. */
  ghost predicate SameOrders(e: Engine, live: Engine) {
    && e.nextId == live.nextId && e.pending == live.pending
    && e.resting.Keys == live.resting.Keys
    && (forall id :: id in e.resting ==> e.resting[id] == live.resting[id].(strategy := None))
    && (forall o :: o in e.delayed ==> exists p :: p in live.delayed && o == p.(strategy := None))
    && (forall p :: p in live.delayed ==> p.(strategy := None) in e.delayed)
  }

  lemma TracedFrame(c: Config, l: L.State, m: L.State)
    requires Traced(c, l) && L.AtRest(l)
    requires m.entries == l.entries && m.orders == l.orders && m.placements == l.placements &&
      m.nextOrderId == l.nextOrderId && m.idPrefix == l.idPrefix
    ensures Traced(c, m) && L.AtRest(m)
  {
    var ps := Placements(l.entries);
    forall i | 0 <= i < |ps| ensures OnRecord(c, m, ps[i], i) {
      assert OnRecord(c, l, ps[i], i);
    }
    forall id | id in m.orders ensures exists i :: 0 <= i < |ps| && Opened(c, m, id, ps[i], i) {
      var i :| 0 <= i < |ps| && Opened(c, l, id, ps[i], i);
      assert Opened(c, m, id, ps[i], i);
    }
  }

  lemma RestorableFrame(c: Config, l: L.State, m: L.State)
    requires m.entries == l.entries && m.orders == l.orders && m.idPrefix == l.idPrefix
    ensures Restorable(c, l) <==> Restorable(c, m)
  {
    hide Expired, Survives;
    var ps := Placements(l.entries);
    forall i | 0 <= i < |ps| ensures StepSafe(c, l, ps[i], i) <==> StepSafe(c, m, ps[i], i) {
      assert forall j :: Id(l, j) == Id(m, j);
    }
  }

  lemma {:induction false} TakersFrame(l: L.State, m: L.State, n: nat)
    requires m.orders == l.orders && m.idPrefix == l.idPrefix
    ensures OpenTakers(l, n) == OpenTakers(m, n)
  {
    if n > 0 {
      TakersFrame(l, m, n - 1);
    }
  }

  lemma RestoresFrame(l: L.State, m: L.State, e: Engine)
    requires m.orders == l.orders && m.nextOrderId == l.nextOrderId && m.idPrefix == l.idPrefix
    ensures Restores(l, e) <==> Restores(m, e)
  {
    TakersFrame(l, m, l.nextOrderId);
  }

  lemma LiveOrdersRestored(c: Config, s: Exec, e: Engine)
    requires Agree(c, s, false) && Traced(c, s.ledger) && L.AtRest(s.ledger) && Restores(s.ledger, e)
    ensures SameOrders(e, s.engine)
  {
    hide Traced, L.AtRest, OpenTakers, PlacementsAnswered;
    var l := s.ledger;
    forall id | id in l.orders ensures l.orders[id].state == (if l.orders[id].order.place.postOnly then L.Resting else L.Delayed) {
      TracedState(c, l, id);
    }
    forall o | o in e.delayed ensures exists p :: p in s.engine.delayed && o == p.(strategy := None) {
      OpenTakersMembers(l, l.nextOrderId, o);
      assert HasDelayed(s.engine, o.orderId);
    }
    forall p | p in s.engine.delayed ensures p.(strategy := None) in e.delayed {
      var j := TracedIndex(c, l, p.orderId);
      OpenTakersHave(l, l.nextOrderId, j);
    }
  }

  lemma TracedIndex(c: Config, l: L.State, id: string) returns (j: nat)
    requires Traced(c, l) && id in l.orders
    ensures j < l.nextOrderId == |Placements(l.entries)| && id == Id(l, j)
  {
    var ps := Placements(l.entries);
    j :| 0 <= j < |ps| && Opened(c, l, id, ps[j], j);
  }

  lemma TracedState(c: Config, l: L.State, id: string)
    requires Traced(c, l) && L.AtRest(l) && id in l.orders
    ensures l.orders[id].state == (if l.orders[id].order.place.postOnly then L.Resting else L.Delayed)
  {
    hide Traced, L.AtRest;
    var j := TracedIndex(c, l, id);
    OpenShape(c, l, j);
  }
}
