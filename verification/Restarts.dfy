/** Accounts that are closed and reopened any number of times. */
module Restarts {
  import opened Trading
  import opened Numerals
  import opened Simulator
  import opened Executor
  import opened Agreement
  import A = Accounting
  import L = Ledger
  import O = OrderLifecycle
  import R = Restart
  import S = Solvency

  // ----- entries already handed out do not matter

  /** The ledger without the entries still to be stored. */
  function Drained(l: L.State): L.State {
    l.(pending := [])
  }

  lemma AppendIgnoresPending(l: L.State, m: L.State, now: Millis, event: L.Event)
    requires Drained(l) == Drained(m)
    ensures L.Append(l, now, event).1 == L.Append(m, now, event).1
    ensures Drained(L.Append(l, now, event).0) == Drained(L.Append(m, now, event).0)
  {
    hide A.Filled, A.Settled, A.Held, L.AfterFill;
    assert l == m.(pending := l.pending);
  }

  lemma {:induction false} RecordIgnoresPending(l: L.State, m: L.State, fills: seq<Fill>)
    requires Drained(l) == Drained(m)
    ensures RecordAll(l, fills).1 == RecordAll(m, fills).1
    ensures Drained(RecordAll(l, fills).0) == Drained(RecordAll(m, fills).0)
    decreases |fills|
  {
    hide L.Append;
    if fills != [] {
      var n := |fills| - 1;
      RecordIgnoresPending(l, m, fills[..n]);
      AppendIgnoresPending(RecordAll(l, fills[..n]).0, RecordAll(m, fills[..n]).0, fills[n].timestampMs,
                           L.FillRecorded(fills[n].orderId, LedgerFillOf(fills[n])));
    }
  }

  lemma CancelIgnoresPending(l: L.State, m: L.State, id: string, now: Millis)
    requires Drained(l) == Drained(m)
    ensures CancelOne(l, id, now).1 == CancelOne(m, id, now).1
    ensures Drained(CancelOne(l, id, now).0) == Drained(CancelOne(m, id, now).0)
  {
    hide L.Append;
    assert l.orders == Drained(l).orders == m.orders;
    AppendIgnoresPending(l, m, now, L.OrderCancelled(id));
  }

  lemma {:induction false} CancelsIgnorePending(l: L.State, m: L.State, ids: seq<string>, now: Millis)
    requires Drained(l) == Drained(m)
    ensures CancelEach(l, ids, now).1 == CancelEach(m, ids, now).1
    ensures Drained(CancelEach(l, ids, now).0) == Drained(CancelEach(m, ids, now).0)
    decreases |ids|
  {
    hide CancelOne, Drained;
    if ids != [] {
      var n := |ids| - 1;
      CancelsIgnorePending(l, m, ids[..n], now);
      CancelIgnoresPending(CancelEach(l, ids[..n], now).0, CancelEach(m, ids[..n], now).0, ids[n], now);
    }
  }

  /** The same executor up to entries still to be stored. */
  ghost predicate Alike(s: Exec, t: Exec) {
    s.engine == t.engine && s.lastMs == t.lastMs && Drained(s.ledger) == Drained(t.ledger)
  }

  lemma SubmitIgnoresPending(c: Config, s: Exec, t: Exec, order: PlaceOrder, strategy: Option<string>, now: Millis)
    requires Alike(s, t)
    ensures var (a, r) := SubmittedTo(c, s, order, strategy, now);
      var (b, q) := SubmittedTo(c, t, order, strategy, now);
      Alike(a, b) && r == q
  {
    hide L.Append, RecordAll, Submitted, L.Committed;
    var l, m := s.ledger, t.ledger;
    assert l == m.(pending := l.pending);
    AppendIgnoresPending(l, m, now, L.OrderPlaced(L.RecordedOrder(order, strategy)));
    var (engine, id) := Submitted(c, s.engine, order, strategy, now);
    var placed, other := Placed(l, order, strategy, now).0, Placed(m, order, strategy, now).0;
    var pid, expected := L.EventId(l.nextSequence), Numbered(l.idPrefix, l.nextOrderId);
    AnswerIgnoresPending(c, placed, other, pid, expected, id, order, now);
    RecordIgnoresPending(Answered(c, placed, pid, expected, id, order, now).0,
                         Answered(c, other, pid, expected, id, order, now).0, engine.pending);
  }

  lemma AnswerIgnoresPending(
    c: Config, l: L.State, m: L.State, pid: string, expected: string, id: Option<string>, order: PlaceOrder, now: Millis)
    requires Drained(l) == Drained(m)
    ensures Answered(c, l, pid, expected, id, order, now).1 == Answered(c, m, pid, expected, id, order, now).1
    ensures Drained(Answered(c, l, pid, expected, id, order, now).0) == Drained(Answered(c, m, pid, expected, id, order, now).0)
  {
    hide L.Append, Drained;
    match id {
      case None => AppendIgnoresPending(l, m, now, L.OrderRejected(pid, expected));
      case Some(actual) =>
        AppendIgnoresPending(l, m, now, L.OrderAck(pid, actual, StateFor(c, order), SaturatingAdd(now, c.latencyMs)));
    }
  }

  lemma StepIgnoresPending(c: Config, s: Exec, t: Exec, op: Op)
    requires Alike(s, t)
    ensures Alike(Step(c, s, op).0, Step(c, t, op).0) && Step(c, s, op).1 == Step(c, t, op).1
  {
    hide SubmittedTo, RecordAll, CancelEach, CancelOne, L.Append, BookUpdated, Cancelled, Drained;
    var l, m := s.ledger, t.ledger;
    match op {
      case Submit(order, strategy, now) => SubmitIgnoresPending(c, s, t, order, strategy, now);
      case UpdateBook(token, book, visit, maturing) =>
        var fills := BookUpdated(c, s.engine, token, book, visit).pending;
        RecordIgnoresPending(l, m, fills);
        CancelsIgnorePending(RecordAll(l, fills).0, RecordAll(m, fills).0, maturing, book.timestampMs);
      case Settle(market, outcome, size, proceeds, now) =>
        AppendIgnoresPending(l, m, now, L.Settlement(market, outcome, size, proceeds));
      case Cancel(id) => CancelIgnoresPending(l, m, id, s.lastMs);
      case CancelAll(ids) => CancelsIgnorePending(l, m, ids, s.lastMs);
    }
  }

  // ----- reopening

  /** The time of the last entry. */
  function LastMs(l: L.State): Millis {
    if l.entries == [] then 0 else l.entries[|l.entries| - 1].timestampMs
  }

  /** The executor that a restart builds from stored entries. */
  ghost predicate Reopens(c: Config, es: seq<L.Entry>, t: Exec) {
    var rebuilt := L.Reconstruct(es, c.idPrefix);
    && rebuilt.Rebuilt?
    && R.RebuiltEngine(c, rebuilt.state) == Some(t.engine)
    && t.ledger == rebuilt.state && t.lastMs == LastMs(rebuilt.state)
  }

  datatype Move = Call(op: Op) | Reopen(entries: seq<L.Entry>)

  /** Calls and restarts; a restart reads what was recorded, possibly with repetitions. */
  ghost predicate IsLongRun(c: Config, initialCash: real, states: seq<Exec>, moves: seq<Move>) {
    && |states| == |moves| + 1 && states[0] == Start(c, initialCash)
    && forall i :: 0 <= i < |moves| ==> Follows(c, states[i], moves[i], states[i + 1])
  }

  ghost predicate Follows(c: Config, s: Exec, move: Move, t: Exec) {
    match move
    case Call(op) => Allowed(s, op) && t == Step(c, s, op).0
    case Reopen(es) => L.WithRepetitions(es, s.ledger.entries) && Reopens(c, es, t)
  }

  /** A ledger that records some run of ledger calls without a leaked fee. */
  ghost predicate Records(c: Config, initialCash: real, l: L.State, calls: seq<L.Call>) {
    && R.AllCalls(calls) && Drained(l) == Drained(L.Live(initialCash, c.idPrefix, calls))
    && L.LeakedFees(initialCash, c.idPrefix, calls) == 0.0
  }

  /** What holds between any two moves. */
  ghost predicate Continuing(c: Config, initialCash: real, s: Exec, lax: bool) {
    && Agree(c, s, lax) && R.Traced(c, s.ledger)
    && exists calls :: Records(c, initialCash, s.ledger, calls)
  }

  lemma StartContinues(c: Config, initialCash: real)
    ensures Continuing(c, initialCash, Start(c, initialCash), false)
  {
    hide R.Traced;
    R.StartIsTraced(c, initialCash);
    assert Records(c, initialCash, Start(c, initialCash).ledger, []);
  }

  /** A timely call whose ledger calls succeed. */
  lemma CallContinues(c: Config, initialCash: real, s: Exec, lax: bool, op: Op)
    requires Continuing(c, initialCash, s, lax) && Allowed(s, op) && Timely(op) && !Step(c, s, op).1.Faulted?
    requires lax || !DropsAny(s, op)
    ensures Continuing(c, initialCash, Step(c, s, op).0, lax)
  {
    hide Agree, R.Traced, Step, L.Live, L.LeakedFees, Allowed;
    StepAgrees(c, s, lax, op);
    R.StepStaysTraced(c, s, lax, op);
    var calls :| Records(c, initialCash, s.ledger, calls);
    var t := s.(ledger := L.Live(initialCash, c.idPrefix, calls));
    StepIgnoresPending(c, s, t, op);
    assert R.NonZero(t.engine.pending) by { NothingPending(c, s, lax); }
    var more := R.StepIsLive(c, initialCash, t, op, calls);
    assert Records(c, initialCash, Step(c, s, op).0.ledger, more);
  }

  lemma NothingPending(c: Config, s: Exec, lax: bool)
    requires Agree(c, s, lax)
    ensures R.NonZero(s.engine.pending)
  {
    hide EngineInLedger, LedgerInEngine, PlacementsAnswered;
  }

  // ----- the reopened executor

  lemma {:induction false} TakersDistinct(l: L.State, n: nat)
    ensures O.DistinctIds(R.OpenTakers(l, n))
  {
    if n > 0 {
      TakersDistinct(l, n - 1);
      var takers := R.OpenTakers(l, n - 1);
      forall o | o in takers ensures o.orderId != R.Id(l, n - 1) {
        R.OpenTakersMembers(l, n - 1, o);
        var j :| 0 <= j < n - 1 && R.OpenTaker(l, j) && o == R.Restored(R.Id(l, j), l.orders[R.Id(l, j)]);
        NumberedInjective(l.idPrefix, j, n - 1);
      }
      assert forall i :: 0 <= i < |takers| ==> takers[i] in takers;
    }
  }

  /** A restored engine agrees exactly with the ledger it was rebuilt from. */
  lemma RestoredAgrees(c: Config, s: Exec, lax: bool, e: Engine, lastMs: Millis)
    requires Agree(c, s, lax) && R.Traced(c, s.ledger) && L.AtRest(s.ledger) && R.Restores(s.ledger, e)
    ensures Agree(c, Exec(e, Drained(s.ledger), lastMs), false)
  {
    hide R.Traced, L.AtRest, R.OpenTakers, EngineShape, EngineInLedger, LedgerInEngine;
    var l := s.ledger;
    RestoredShape(l, e);
    RestoredInLedger(c, l, e);
    LedgerRestored(c, l, e);
  }

  lemma RestoredShape(l: L.State, e: Engine)
    requires R.Restores(l, e)
    ensures EngineShape(e)
  {
    hide R.OpenTakers;
    TakersDistinct(l, l.nextOrderId);
    forall o | o in e.delayed ensures o.orderId !in e.resting {
      R.OpenTakersMembers(l, l.nextOrderId, o);
    }
  }

  lemma RestoredInLedger(c: Config, l: L.State, e: Engine)
    requires R.Traced(c, l) && L.AtRest(l) && R.Restores(l, e)
    ensures EngineInLedger(e, Drained(l))
  {
    hide R.Traced, L.AtRest, R.OpenTakers;
    forall id | id in e.resting ensures id in l.orders && Same(e.resting[id], l.orders[id], L.Resting) {
      R.TracedState(c, l, id);
    }
    forall o | o in e.delayed ensures o.orderId in l.orders && Same(o, l.orders[o.orderId], L.Delayed) {
      R.OpenTakersMembers(l, l.nextOrderId, o);
      R.TracedState(c, l, o.orderId);
    }
  }

  lemma LedgerRestored(c: Config, l: L.State, e: Engine)
    requires R.Traced(c, l) && L.AtRest(l) && R.Restores(l, e)
    ensures LedgerInEngine(e, Drained(l), false)
  {
    hide R.Traced, L.AtRest, R.OpenTakers;
    forall id | id in l.orders
      ensures l.orders[id].state == (if l.orders[id].order.place.postOnly then L.Resting else L.Delayed)
      ensures !l.orders[id].order.place.postOnly ==> HasDelayed(e, id)
    {
      R.TracedState(c, l, id);
      var j := R.TracedIndex(c, l, id);
      if R.OpenTaker(l, j) {
        R.OpenTakersHave(l, l.nextOrderId, j);
        assert R.Restored(id, l.orders[id]) in e.delayed;
      }
    }
  }

  lemma AgreedIsAtRest(c: Config, s: Exec, lax: bool)
    requires Agree(c, s, lax)
    ensures L.AtRest(s.ledger) && s.ledger.idPrefix == c.idPrefix
  {
    hide EngineShape, EngineInLedger;
  }

  /**
   * A restorable account can be reopened from what it recorded: the ledger comes back unchanged, and the rebuilt
   * engine agrees with it exactly, even where the engine before had dropped orders silently.
   */
  lemma ReopenContinues(c: Config, initialCash: real, s: Exec, lax: bool, es: seq<L.Entry>) returns (t: Exec)
    requires Continuing(c, initialCash, s, lax) && L.WithRepetitions(es, s.ledger.entries) && R.Restorable(c, s.ledger)
    ensures Reopens(c, es, t) && t.ledger == Drained(s.ledger) && R.Restores(s.ledger, t.engine)
    ensures Continuing(c, initialCash, t, false)
  {
    hide Agree, R.Traced, L.Live, L.LeakedFees, L.Reconstruct, L.WithRepetitions, L.AtRest, R.Restorable, R.RebuiltEngine,
      R.Restores, L.LeakyCall;
    var calls :| Records(c, initialCash, s.ledger, calls);
    var live := L.Live(initialCash, c.idPrefix, calls);
    AgreedIsAtRest(c, s, lax);
    L.LeakedFeesExactly(initialCash, c.idPrefix, calls);
    assert live.entries == Drained(live).entries == s.ledger.entries;
    RestIgnoresPending(live, s.ledger);
    L.ReplayEqualsLive(initialCash, c.idPrefix, calls, es);
    var l := L.Reconstruct(es, c.idPrefix).state;
    assert l == Drained(s.ledger);
    R.TracedFrame(c, s.ledger, l);
    R.RestorableFrame(c, s.ledger, l);
    R.RebuildRestoresIff(c, l);
    var e := R.RebuiltEngine(c, l).value;
    R.RestoresFrame(l, s.ledger, e);
    t := Exec(e, l, LastMs(l));
    RestoredAgrees(c, s, lax, e, LastMs(l));
    assert Records(c, initialCash, l, calls);
  }

  lemma RestIgnoresPending(l: L.State, m: L.State)
    requires Drained(l) == Drained(m)
    ensures L.AtRest(l) <==> L.AtRest(m)
  {
    assert l.placements == Drained(l).placements == m.placements && l.orders == Drained(l).orders == m.orders;
  }

  /** Two restarts from the same entries build the same executor. */
  lemma ReopeningIsDetermined(c: Config, es: seq<L.Entry>, t: Exec, u: Exec)
    requires Reopens(c, es, t) && Reopens(c, es, u)
    ensures t == u
  {
    hide L.Reconstruct, R.RebuiltEngine;
  }

  lemma ExactIsLax(c: Config, initialCash: real, s: Exec, lax: bool)
    requires Continuing(c, initialCash, s, false)
    ensures Continuing(c, initialCash, s, lax)
  {
    hide R.Traced, EngineShape, EngineInLedger, PlacementsAnswered, Records;
  }

  // ----- whole lives

  /** What a move must not do: be late, be refused by the ledger, or restart from a ledger that cannot be restored. */
  ghost predicate Regular(c: Config, s: Exec, move: Move) {
    match move
    case Call(op) => Timely(op) && !Step(c, s, op).1.Faulted?
    case Reopen(_) => R.Restorable(c, s.ledger)
  }

  ghost predicate DropsInMove(s: Exec, move: Move) {
    move.Call? && DropsAny(s, move.op)
  }

  lemma MoveContinues(c: Config, initialCash: real, s: Exec, lax: bool, move: Move, t: Exec)
    requires Continuing(c, initialCash, s, lax) && Follows(c, s, move, t) && Regular(c, s, move)
    requires lax || !DropsInMove(s, move)
    ensures Continuing(c, initialCash, t, lax)
    ensures move.Reopen? ==> Continuing(c, initialCash, t, false) && R.Restores(s.ledger, t.engine) && t.ledger == Drained(s.ledger)
  {
    hide Continuing, Step, Reopens, R.Restorable, L.WithRepetitions, R.Restores, Allowed;
    match move {
      case Call(op) => CallContinues(c, initialCash, s, lax, op);
      case Reopen(es) =>
        var u := ReopenContinues(c, initialCash, s, lax, es);
        ReopeningIsDetermined(c, es, t, u);
        ExactIsLax(c, initialCash, t, lax);
    }
  }

  /**
   * Over every life of an account, with any number of restarts: engine and ledger agree on the terms and remainders
   * of their open orders and on the next id, and the ledger is at rest, so it can always be restarted again.
   */
  lemma {:induction false} AgreeThroughRestarts(
    c: Config, initialCash: real, states: seq<Exec>, moves: seq<Move>, n: nat, lax: bool)
    requires IsLongRun(c, initialCash, states, moves) && n <= |moves|
    requires forall i :: 0 <= i < n ==> Regular(c, states[i], moves[i])
    requires lax || forall i :: 0 <= i < n ==> !DropsInMove(states[i], moves[i])
    ensures Continuing(c, initialCash, states[n], lax)
    ensures Agree(c, states[n], lax) && L.AtRest(states[n].ledger)
    decreases n
  {
    hide Continuing, Follows, Regular, DropsInMove, Agree, L.AtRest;
    if n == 0 {
      StartContinues(c, initialCash);
      ExactIsLax(c, initialCash, states[0], lax);
    } else {
      AgreeThroughRestarts(c, initialCash, states, moves, n - 1, lax);
      MoveContinues(c, initialCash, states[n - 1], lax, moves[n - 1], states[n]);
    }
    ContinuingAgrees(c, initialCash, states[n], lax);
    AgreedIsAtRest(c, states[n], lax);
  }

  lemma ContinuingAgrees(c: Config, initialCash: real, s: Exec, lax: bool)
    requires Continuing(c, initialCash, s, lax)
    ensures Agree(c, s, lax)
  {
    hide Agree, R.Traced, Records;
  }

  // ----- solvency through restarts

  lemma RestoredIsBacked(c: Config, initialCash: real, s: Exec, t: Exec)
    requires S.Backed(c, s) && Continuing(c, initialCash, t, false)
    requires R.Restores(s.ledger, t.engine) && t.ledger == Drained(s.ledger)
    ensures S.Backed(c, t)
  {
    hide R.Traced, Records, R.OpenTakers, L.Committed, A.Sound, EngineShape, LedgerInEngine, PlacementsAnswered;
    var l := s.ledger;
    assert S.EnginePriced(t.engine, t.ledger.orders) by { RestoredIsPriced(l, t.engine); }
    RestoredIsFresh(c, t);
  }

  lemma RestoredIsPriced(l: L.State, e: Engine)
    requires R.Restores(l, e) && S.Solvent(l)
    ensures S.EnginePriced(e, l.orders)
  {
    hide R.OpenTakers, L.Committed, A.Sound;
    forall o | o in e.delayed ensures S.Priced(o, l.orders) {
      R.OpenTakersMembers(l, l.nextOrderId, o);
    }
  }

  lemma RestoredIsFresh(c: Config, t: Exec)
    requires Agree(c, t, false)
    ensures S.Fresh(c, t.engine, t.ledger)
  {
    hide LedgerInEngine, PlacementsAnswered;
  }

  ghost predicate Nonnegative(move: Move) {
    move.Call? && move.op.Submit? ==> S.NonNegativeOrder(move.op.order)
  }

  /** Over every life with any number of restarts, cash plus cumulative fees covers the notional of all open buys. */
  lemma {:induction false} SolventThroughRestarts(
    c: Config, initialCash: real, states: seq<Exec>, moves: seq<Move>, n: nat)
    requires IsLongRun(c, initialCash, states, moves) && n <= |moves|
    requires forall i :: 0 <= i < n ==> Regular(c, states[i], moves[i]) && Nonnegative(moves[i])
    ensures S.Backed(c, states[n])
    ensures var l := states[n].ledger;
      match L.AvailableCash(l) case None => true case Some(free) => free >= -l.account.fees
    decreases n
  {
    hide Step, Allowed, Reopens, Continuing, S.EnginePriced, S.Fresh, L.Committed, L.WithRepetitions, R.Restorable, R.Restores;
    if n == 0 {
      S.StartIsBacked(c, initialCash);
    } else {
      SolventThroughRestarts(c, initialCash, states, moves, n - 1);
      AgreeThroughRestarts(c, initialCash, states, moves, n - 1, true);
      var s, move, t := states[n - 1], moves[n - 1], states[n];
      assert Follows(c, s, move, t) && Regular(c, s, move) && Nonnegative(move);
      MoveContinues(c, initialCash, s, true, move, t);
      match move {
        case Call(op) => S.StepKeepsBacked(c, s, op);
        case Reopen(_) => RestoredIsBacked(c, initialCash, s, t);
      }
    }
  }
}
