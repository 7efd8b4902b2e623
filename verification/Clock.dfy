/** When the executor's calls happen, what they put on record, and which submissions they turn away. */
module Clock {
  import opened Trading
  import opened Numerals
  import opened Simulator
  import opened Executor
  import A = Accounting
  import L = Ledger

  // ----- what a call records

  /** The time a call carries; cancellations happen at the time of the last call that carried one. */
  function CallTime(op: Op, lastMs: Millis): Millis {
    match op
    case Submit(_, _, now) => now
    case UpdateBook(_, book, _, _) => book.timestampMs
    case Settle(_, _, _, _, now) => now
    case _ => lastMs
  }

  /** `m` has recorded more than `l`: fills, and otherwise only what happened at `time`. */
  ghost predicate RecordsAt(l: L.State, m: L.State, time: Millis) {
    && l.entries <= m.entries
    && forall i :: |l.entries| <= i < |m.entries| ==> m.entries[i].event.FillRecorded? || m.entries[i].timestampMs == time
  }

  lemma AppendRecordsAt(l: L.State, time: Millis, event: L.Event, now: Millis)
    requires event.FillRecorded? || time == now
    ensures RecordsAt(l, L.Append(l, time, event).0, now)
  {
    hide L.Apply;
    L.ApplyFrame(l, L.NextEntry(l, time, event));
  }

  lemma RecordsThrough(l: L.State, m: L.State, n: L.State, now: Millis)
    requires RecordsAt(l, m, now) && RecordsAt(m, n, now)
    ensures RecordsAt(l, n, now)
  {
  }

  lemma {:induction false} FillsRecordAt(l: L.State, fills: seq<Fill>, now: Millis)
    ensures RecordsAt(l, RecordAll(l, fills).0, now)
    decreases |fills|
  {
    hide L.Append, RecordsAt;
    if fills != [] {
      var n := |fills| - 1;
      var m := RecordAll(l, fills[..n]).0;
      FillsRecordAt(l, fills[..n], now);
      AppendRecordsAt(m, fills[n].timestampMs, L.FillRecorded(fills[n].orderId, LedgerFillOf(fills[n])), now);
      RecordsThrough(l, m, RecordOne(m, fills[n]).0, now);
    } else {
      NothingRecorded(l, now);
    }
  }

  lemma NothingRecorded(l: L.State, now: Millis)
    ensures RecordsAt(l, l, now)
  {
  }

  /** The record of a fill: its own order, time and amounts. */
  predicate IsRecordOf(entry: L.Entry, f: Fill) {
    entry.timestampMs == f.timestampMs &&
    entry.event == L.FillRecorded(f.orderId, A.LedgerFill(f.market, f.outcome, f.side, f.price, f.size, f.fee))
  }

  /** A batch of fills that is accepted is on record as it came: one entry each, in order, and nothing else. */
  lemma {:induction false} FillsAreRecorded(l: L.State, fills: seq<Fill>)
    requires RecordAll(l, fills).1.Ok?
    ensures var m := RecordAll(l, fills).0;
      && |m.entries| == |l.entries| + |fills| && l.entries <= m.entries
      && forall i :: 0 <= i < |fills| ==> IsRecordOf(m.entries[|l.entries| + i], fills[i])
    decreases |fills|
  {
    hide L.Apply;
    if fills != [] {
      var n := |fills| - 1;
      FillsAreRecorded(l, fills[..n]);
      var m, f := RecordAll(l, fills[..n]).0, fills[n];
      L.ApplyFrame(m, L.NextEntry(m, f.timestampMs, L.FillRecorded(f.orderId, LedgerFillOf(f))));
    }
  }

  lemma {:induction false} CancelsRecordAt(l: L.State, ids: seq<string>, now: Millis)
    ensures RecordsAt(l, CancelEach(l, ids, now).0, now)
    decreases |ids|
  {
    hide L.Append, RecordsAt;
    NothingRecorded(l, now);
    if ids != [] {
      var n := |ids| - 1;
      var m := CancelEach(l, ids[..n], now).0;
      CancelsRecordAt(l, ids[..n], now);
      AppendRecordsAt(m, now, L.OrderCancelled(ids[n]), now);
      NothingRecorded(m, now);
      RecordsThrough(l, m, CancelOne(m, ids[n], now).0, now);
    }
  }

  lemma SubmitRecordsAt(c: Config, s: Exec, order: PlaceOrder, strategy: Option<string>, now: Millis)
    ensures RecordsAt(s.ledger, SubmittedTo(c, s, order, strategy, now).0.ledger, now)
  {
    hide L.Append, RecordsAt, Submitted, RecordAll, Unaffordable;
    var l := s.ledger;
    NothingRecorded(l, now);
    var placed := Placed(l, order, strategy, now).0;
    AppendRecordsAt(l, now, L.OrderPlaced(L.RecordedOrder(order, strategy)), now);
    var (engine, id) := Submitted(c, s.engine, order, strategy, now);
    var placementId, expected := L.EventId(l.nextSequence), Numbered(l.idPrefix, l.nextOrderId);
    var answered := Answered(c, placed, placementId, expected, id, order, now).0;
    NothingRecorded(placed, now);
    match id {
      case Some(actual) =>
        AppendRecordsAt(placed, now, L.OrderAck(placementId, actual, StateFor(c, order), SaturatingAdd(now, c.latencyMs)), now);
      case None => AppendRecordsAt(placed, now, L.OrderRejected(placementId, expected), now);
    }
    FillsRecordAt(answered, engine.pending, now);
    RecordsThrough(l, placed, answered, now);
    RecordsThrough(l, answered, RecordAll(answered, engine.pending).0, now);
  }

  /**
   * Whatever a call records, fills aside, it records at its own time, and a cancellation at the executor's clock; the
   * clock moves to a call's time when the call completes, and for no other reason.
   */
  lemma CallsAreTimed(c: Config, s: Exec, op: Op)
    ensures var (t, r) := Step(c, s, op);
      && RecordsAt(s.ledger, t.ledger, CallTime(op, s.lastMs))
      && (t.lastMs == s.lastMs || t.lastMs == CallTime(op, s.lastMs))
      && (r == Done ==> t.lastMs == CallTime(op, s.lastMs))
      && (r.Faulted? ==> t.lastMs == s.lastMs)
  {
    hide L.Append, RecordsAt, RecordAll, CancelEach, CancelOne, BookUpdated, Cancelled, Submitted, Unaffordable, Answered, Placed;
    NothingRecorded(s.ledger, CallTime(op, s.lastMs));
    match op {
      case Submit(order, strategy, now) => SubmitRecordsAt(c, s, order, strategy, now);
      case UpdateBook(token, book, visit, maturing) =>
        var fills, now := BookUpdated(c, s.engine, token, book, visit).pending, book.timestampMs;
        var recorded := RecordAll(s.ledger, fills).0;
        FillsRecordAt(s.ledger, fills, now);
        CancelsRecordAt(recorded, maturing, now);
        RecordsThrough(s.ledger, recorded, CancelEach(recorded, maturing, now).0, now);
      case Settle(market, outcome, size, proceeds, now) =>
        AppendRecordsAt(s.ledger, now, L.Settlement(market, outcome, size, proceeds), now);
      case Cancel(id) => CancelRecordsAt(s.ledger, id, s.lastMs);
      case CancelAll(ids) => CancelsRecordAt(s.ledger, ids, s.lastMs);
    }
  }

  lemma CancelRecordsAt(l: L.State, id: string, now: Millis)
    ensures RecordsAt(l, CancelOne(l, id, now).0, now)
  {
    hide L.Append, RecordsAt;
    NothingRecorded(l, now);
    AppendRecordsAt(l, now, L.OrderCancelled(id), now);
  }

  // ----- submissions turned away

  /**
   * A submission is turned away, with nothing placed, if and only if it violates the venue limits or is a buy that
   * costs more than the cash that a funded account has not promised to its open buys.
   */
  lemma TurnedAwayIff(c: Config, s: Exec, order: PlaceOrder, strategy: Option<string>, now: Millis)
    ensures var (t, r) := Step(c, s, Submit(order, strategy, now));
      var away := c.violatesLimits(order) ||
        (order.side == Buy && s.ledger.cashFunded &&
         order.price * order.qty > s.ledger.account.cash - L.Committed(s.ledger.orders));
      && (away ==> t == s && r == Rejected)
      && (!away && L.EventId(s.ledger.nextSequence) !in s.ledger.placements ==>
        |t.ledger.entries| > |s.ledger.entries| && t.ledger.entries[|s.ledger.entries|].event == L.OrderPlaced(L.RecordedOrder(order, strategy)))
  {
    hide Submitted, RecordAll, L.Committed, Answered, L.Append;
    if !c.violatesLimits(order) && !Unaffordable(s.ledger, order) && L.EventId(s.ledger.nextSequence) !in s.ledger.placements {
      PlacingRecords(s.ledger, order, strategy, now);
      PlacedStays(c, s, order, strategy, now);
    }
  }

  lemma PlacingRecords(l: L.State, order: PlaceOrder, strategy: Option<string>, now: Millis)
    requires L.EventId(l.nextSequence) !in l.placements
    ensures var (m, v) := Placed(l, order, strategy, now);
      && v.Ok? && |m.entries| == |l.entries| + 1
      && m.entries[|l.entries|].event == L.OrderPlaced(L.RecordedOrder(order, strategy))
  {
  }

  /** What a submission does after placing only adds to the log. */
  lemma PlacedStays(c: Config, s: Exec, order: PlaceOrder, strategy: Option<string>, now: Millis)
    requires !c.violatesLimits(order) && !Unaffordable(s.ledger, order)
    ensures Placed(s.ledger, order, strategy, now).0.entries <= SubmittedTo(c, s, order, strategy, now).0.ledger.entries
  {
    hide Submitted, RecordAll, Unaffordable, L.Append;
    var l := s.ledger;
    var placed := Placed(l, order, strategy, now).0;
    var (engine, id) := Submitted(c, s.engine, order, strategy, now);
    var placementId, expected := L.EventId(l.nextSequence), Numbered(l.idPrefix, l.nextOrderId);
    var answered := Answered(c, placed, placementId, expected, id, order, now).0;
    match id {
      case Some(actual) =>
        AppendRecordsAt(placed, now, L.OrderAck(placementId, actual, StateFor(c, order), SaturatingAdd(now, c.latencyMs)), now);
      case None => AppendRecordsAt(placed, now, L.OrderRejected(placementId, expected), now);
    }
    FillsRecordAt(answered, engine.pending, now);
  }
}
