/** What becomes of an account whose engine and ledger no longer count the same orders. */
module Divergence {
  import opened Trading
  import opened Numerals
  import opened Simulator
  import opened Executor
  import opened Agreement
  import L = Ledger
  import R = Restart

  /** The ledger has counted an order that the engine has not. */
  ghost predicate Ahead(c: Config, s: Exec) {
    s.ledger.idPrefix == c.idPrefix && s.engine.nextId < s.ledger.nextOrderId
  }

  /** The placement with sequence `k` was never answered. */
  ghost predicate Orphan(l: L.State, k: nat) {
    k < l.nextSequence && L.EventId(k) in l.placements && l.placements[L.EventId(k)].terminal.None?
  }

  /** A ledger step that leaves placements and counter alone. */
  ghost predicate Quiet(l: L.State, m: L.State) {
    m.placements == l.placements && m.nextOrderId == l.nextOrderId && m.idPrefix == l.idPrefix &&
    l.nextSequence <= m.nextSequence
  }

  lemma QuietAppend(l: L.State, now: Millis, event: L.Event)
    requires event.FillRecorded? || event.OrderCancelled? || event.Settlement?
    ensures Quiet(l, L.Append(l, now, event).0)
  {
    hide L.A.Filled, L.A.Settled, L.A.Held;
  }

  lemma {:induction false} QuietRecords(l: L.State, fills: seq<Fill>)
    ensures Quiet(l, RecordAll(l, fills).0)
    decreases |fills|
  {
    hide L.Append;
    if fills != [] {
      var n := |fills| - 1;
      QuietRecords(l, fills[..n]);
      QuietAppend(RecordAll(l, fills[..n]).0, fills[n].timestampMs, L.FillRecorded(fills[n].orderId, LedgerFillOf(fills[n])));
    }
  }

  lemma {:induction false} QuietCancels(l: L.State, ids: seq<string>, now: Millis)
    ensures Quiet(l, CancelEach(l, ids, now).0)
    decreases |ids|
  {
    hide L.Append;
    if ids != [] {
      var n := |ids| - 1;
      QuietCancels(l, ids[..n], now);
      QuietAppend(CancelEach(l, ids[..n], now).0, now, L.OrderCancelled(ids[n]));
    }
  }

  /** What placing and answering one order does to the counter and to the placements. */
  lemma PlacedAndAnswered(c: Config, l: L.State, order: PlaceOrder, strategy: Option<string>, id: Option<string>, now: Millis)
    ensures var (placed, v0) := Placed(l, order, strategy, now);
      var m := Answered(c, placed, L.EventId(l.nextSequence), Numbered(l.idPrefix, l.nextOrderId), id, order, now).0;
      && placed.idPrefix == l.idPrefix == m.idPrefix
      && placed.nextOrderId == m.nextOrderId == l.nextOrderId + (if v0.Ok? then 1 else 0)
      && l.nextSequence <= placed.nextSequence <= m.nextSequence
      && forall x :: x in l.placements && x != L.EventId(l.nextSequence) ==>
        && x in placed.placements && placed.placements[x] == l.placements[x]
        && x in m.placements && m.placements[x] == l.placements[x]
  {
  }

  lemma SubmitKeepsOrphan(c: Config, s: Exec, order: PlaceOrder, strategy: Option<string>, now: Millis, k: nat)
    requires Orphan(s.ledger, k)
    ensures Orphan(SubmittedTo(c, s, order, strategy, now).0.ledger, k)
  {
    hide Placed, Answered, RecordAll, Submitted, Unaffordable;
    var l := s.ledger;
    NumberedInjective("paper-ledger", k, l.nextSequence);
    var (engine, id) := Submitted(c, s.engine, order, strategy, now);
    PlacedAndAnswered(c, l, order, strategy, id, now);
    var placed := Placed(l, order, strategy, now).0;
    var answered := Answered(c, placed, L.EventId(l.nextSequence), Numbered(l.idPrefix, l.nextOrderId), id, order, now).0;
    QuietRecords(answered, engine.pending);
  }

  /** No executor call ever answers an old placement. */
  lemma StepKeepsOrphan(c: Config, s: Exec, op: Op, k: nat)
    requires Orphan(s.ledger, k)
    ensures Orphan(Step(c, s, op).0.ledger, k)
  {
    hide L.Append, RecordAll, CancelEach, BookUpdated, Cancelled, SubmittedTo;
    match op {
      case Submit(order, strategy, now) => SubmitKeepsOrphan(c, s, order, strategy, now, k);
      case UpdateBook(token, book, visit, maturing) =>
        var fills := BookUpdated(c, s.engine, token, book, visit).pending;
        QuietRecords(s.ledger, fills);
        QuietCancels(RecordAll(s.ledger, fills).0, maturing, book.timestampMs);
      case Settle(market, outcome, size, proceeds, now) =>
        QuietAppend(s.ledger, now, L.Settlement(market, outcome, size, proceeds));
      case Cancel(id) => QuietAppend(s.ledger, s.lastMs, L.OrderCancelled(id));
      case CancelAll(ids) => QuietCancels(s.ledger, ids, s.lastMs);
    }
  }

  lemma SubmitMintsOne(c: Config, e: Engine, order: PlaceOrder, strategy: Option<string>, now: Millis)
    ensures Submitted(c, e, order, strategy, now).0.nextId <= e.nextId + 1
    ensures Submitted(c, e, order, strategy, now).1.Some? ==>
      Submitted(c, e, order, strategy, now).1.value == Numbered(c.idPrefix, e.nextId)
  {
    hide TakerFill, Touches;
  }

  /** A ledger that is ahead stays ahead. */
  lemma StepKeepsAhead(c: Config, s: Exec, op: Op)
    requires Ahead(c, s)
    ensures Ahead(c, Step(c, s, op).0)
  {
    hide L.Append, RecordAll, CancelEach, Placed, Answered, Submitted, Unaffordable, ActivationFills, SweepFills;
    match op {
      case Submit(order, strategy, now) =>
        var l := s.ledger;
        var (engine, id) := Submitted(c, s.engine, order, strategy, now);
        SubmitMintsOne(c, s.engine, order, strategy, now);
        PlacedAndAnswered(c, l, order, strategy, id, now);
        var placed := Placed(l, order, strategy, now).0;
        var answered := Answered(c, placed, L.EventId(l.nextSequence), Numbered(l.idPrefix, l.nextOrderId), id, order, now).0;
        QuietRecords(answered, engine.pending);
      case UpdateBook(token, book, visit, maturing) =>
        var fills := BookUpdated(c, s.engine, token, book, visit).pending;
        QuietRecords(s.ledger, fills);
        QuietCancels(RecordAll(s.ledger, fills).0, maturing, book.timestampMs);
      case Settle(market, outcome, size, proceeds, now) =>
        QuietAppend(s.ledger, now, L.Settlement(market, outcome, size, proceeds));
      case Cancel(id) => QuietAppend(s.ledger, s.lastMs, L.OrderCancelled(id));
      case CancelAll(ids) => QuietCancels(s.ledger, ids, s.lastMs);
    }
  }

  /** An order that reaches the engine: within the limits and affordable. */
  ghost predicate PassesGuards(c: Config, s: Exec, op: Op) {
    op.Submit? && !c.violatesLimits(op.order) && !Unaffordable(s.ledger, op.order)
  }

  /** An order that is already expired when it is submitted puts the ledger ahead. */
  lemma LateOrderPutsAhead(c: Config, s: Exec, lax: bool, op: Op)
    requires Agree(c, s, lax) && PassesGuards(c, s, op) && Expired(op.order, op.now)
    ensures Step(c, s, op).1 == Rejected && Ahead(c, Step(c, s, op).0)
  {
    hide Answered, Placed, RecordAll, EngineShape, EngineInLedger, LedgerInEngine, Unaffordable, PlacementsAnswered;
    NoPending(c, s, lax);
    PlacedEffect(s.ledger, op.order, op.strategy, op.now);
    AnsweredEffect(c, s.ledger, op.order, op.strategy, None, op.now);
    var placed := Placed(s.ledger, op.order, op.strategy, op.now).0;
    NothingToRecord(Answered(c, placed, L.EventId(s.ledger.nextSequence),
                             Numbered(s.ledger.idPrefix, s.ledger.nextOrderId), None, op.order, op.now).0);
  }

  /** An order that the engine accepts under a ledger that is ahead is refused by the ledger and never answered. */
  lemma AcceptedWhileAhead(c: Config, s: Exec, op: Op)
    requires Ahead(c, s) && PassesGuards(c, s, op) && L.EventId(s.ledger.nextSequence) !in s.ledger.placements
    requires Submitted(c, s.engine, op.order, op.strategy, op.now).1.Some?
    ensures Step(c, s, op).1 == Faulted(L.Inconsistent) && Orphan(Step(c, s, op).0.ledger, s.ledger.nextSequence)
  {
    hide Submitted, RecordAll, Unaffordable;
    SubmitMintsOne(c, s.engine, op.order, op.strategy, op.now);
    NumberedInjective(c.idPrefix, s.engine.nextId, s.ledger.nextOrderId);
  }

  lemma {:induction false} AheadForever(c: Config, initialCash: real, states: seq<Exec>, ops: seq<Op>, i: nat, m: nat)
    requires IsRun(c, initialCash, states, ops) && i <= m <= |ops| && Ahead(c, states[i])
    ensures Ahead(c, states[m])
    decreases m
  {
    hide Step, Allowed, Ahead;
    if i < m {
      AheadForever(c, initialCash, states, ops, i, m - 1);
      StepKeepsAhead(c, states[m - 1], ops[m - 1]);
    }
  }

  lemma {:induction false} OrphanForever(
    c: Config, initialCash: real, states: seq<Exec>, ops: seq<Op>, i: nat, m: nat, k: nat)
    requires IsRun(c, initialCash, states, ops) && i <= m <= |ops| && Orphan(states[i].ledger, k)
    ensures Orphan(states[m].ledger, k)
    decreases m
  {
    hide Step, Allowed, Orphan;
    if i < m {
      OrphanForever(c, initialCash, states, ops, i, m - 1, k);
      StepKeepsOrphan(c, states[m - 1], ops[m - 1], k);
    }
  }

  /**
   * One late order is fatal. After it every submission that the engine accepts is refused by the ledger as
   * inconsistent, and from the first of those on the ledger is never at rest and cannot be reconstructed.
   */
  lemma LateOrderIsFatal(
    c: Config, initialCash: real, states: seq<Exec>, ops: seq<Op>, lax: bool, i: nat, j: nat, m: nat, es: seq<L.Entry>)
    requires IsRun(c, initialCash, states, ops) && i < j < m <= |ops|
    requires Agree(c, states[i], lax) && PassesGuards(c, states[i], ops[i]) && Expired(ops[i].order, ops[i].now)
    requires PassesGuards(c, states[j], ops[j])
    requires Submitted(c, states[j].engine, ops[j].order, ops[j].strategy, ops[j].now).1.Some?
    requires L.WithRepetitions(es, states[m].ledger.entries)
    ensures Step(c, states[j], ops[j]).1 == Faulted(L.Inconsistent)
    ensures !L.AtRest(states[m].ledger) && L.Reconstruct(es, c.idPrefix).Failed?
  {
    hide Step, Allowed, Agree, PassesGuards, Submitted, L.WithRepetitions, L.Reconstruct, L.Live, L.LeakyCall, Ahead, Orphan;
    LateOrderPutsAhead(c, states[i], lax, ops[i]);
    AheadForever(c, initialCash, states, ops, i + 1, j);
    FreshEvent(c, initialCash, states, ops, j);
    AcceptedWhileAhead(c, states[j], ops[j]);
    OrphanForever(c, initialCash, states, ops, j + 1, m, states[j].ledger.nextSequence);
    OrphanIsNotAtRest(states[m].ledger, states[j].ledger.nextSequence);
    var calls := R.RunIsLive(c, initialCash, states, ops, m);
    L.ReplayEqualsLive(initialCash, c.idPrefix, calls, es);
  }

  lemma OrphanIsNotAtRest(l: L.State, k: nat)
    requires Orphan(l, k)
    ensures !L.AtRest(l)
  {
  }

  /** The next event id names no placement yet. */
  lemma FreshEvent(c: Config, initialCash: real, states: seq<Exec>, ops: seq<Op>, n: nat)
    requires IsRun(c, initialCash, states, ops) && n <= |ops|
    ensures L.EventId(states[n].ledger.nextSequence) !in states[n].ledger.placements
  {
    hide Step, Allowed, L.Live, IsRun, L.Replay;
    var calls := R.RunIsLive(c, initialCash, states, ops, n);
    L.ReplayMirrorsLive(initialCash, c.idPrefix, calls);
  }
}
