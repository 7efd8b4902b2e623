/** Short runs in which a promise that needs its condition fails without it. */
module Counterexamples {
  import opened Trading
  import opened Numerals
  import opened BookWalk
  import opened Simulator
  import opened Executor
  import opened Agreement
  import A = Accounting
  import L = Ledger
  import R = Restart

  const TOKEN: Token := ("m", Up)

  /** No limits, one fee for every fill. */
  function Venue(latencyMs: Millis, fee: real): Config {
    Config("p", latencyMs, 0, 0, 0, (_, _, _) => Some(fee), _ => false)
  }

  function Quoted(now: Millis): OrderBook {
    OrderBook([Level(0.4, 100.0)], [Level(0.5, 100.0)], now)
  }

  function Order(side: Side, price: real, qty: real, postOnly: bool, tif: TimeInForce): PlaceOrder {
    PlaceOrder("m", Up, side, price, qty, postOnly, tif)
  }

  /** An executor that has seen one book. */
  function Quiet(c: Config, cash: real): Exec {
    Exec(EMPTY_ENGINE.(books := map[TOKEN := Quoted(0)]), L.New(cash, c.idPrefix), 0)
  }

  lemma FirstBook(c: Config, cash: real)
    ensures Step(c, Start(c, cash), UpdateBook(TOKEN, Quoted(0), [], [])) == (Quiet(c, cash), Done)
    ensures Allowed(Start(c, cash), UpdateBook(TOKEN, Quoted(0), [], []))
    ensures Agree(c, Quiet(c, cash), false)
  {
    var s := Start(c, cash);
    assert BookUpdated(c, s.engine, TOKEN, Quoted(0), []) == Quiet(c, cash).engine;
    NothingToRecord(s.ledger);
  }

  /** What a submission that opens an order does. */
  lemma Opens(c: Config, s: Exec, lax: bool, order: PlaceOrder, now: Millis)
    requires Agree(c, s, lax) && !Expired(order, now) && !c.violatesLimits(order) && !Unaffordable(s.ledger, order)
    requires Submitted(c, s.engine, order, None, now).1.Some? && StateFor(c, order) != L.Immediate
    ensures var (t, r) := Step(c, s, Submit(order, None, now));
      var id := Numbered(c.idPrefix, s.ledger.nextOrderId);
      && r == Done && Agree(c, t, lax) && t.engine == Submitted(c, s.engine, order, None, now).0
      && t.ledger.orders == s.ledger.orders[id := L.Tracked(
           L.RecordedOrder(order, None), StateFor(c, order), now, SaturatingAdd(now, c.latencyMs))]
      && t.ledger.nextOrderId == s.ledger.nextOrderId + 1 && t.lastMs == now
      && t.ledger.account == s.ledger.account && t.ledger.cashFunded == s.ledger.cashFunded
  {
    hide Submitted, Answered, Placed, RecordAll, EngineShape, EngineInLedger, LedgerInEngine, Unaffordable, PlacementsAnswered;
    SubmitAgrees(c, s, lax, order, None, now);
    SubmittedEffect(c, s.engine, order, None, now);
    var (engine, id) := Submitted(c, s.engine, order, None, now);
    PlacedEffect(s.ledger, order, None, now);
    AnsweredEffect(c, s.ledger, order, None, id, now);
    NoPending(c, s, lax);
    var answered := Answered(c, Placed(s.ledger, order, None, now).0, L.EventId(s.ledger.nextSequence),
                             Numbered(s.ledger.idPrefix, s.ledger.nextOrderId), id, order, now).0;
    AnswersLeaveCash(c, s.ledger, order, id, now);
    NothingToRecord(answered);
    assert engine.(pending := []) == engine;
  }

  lemma AnswersLeaveCash(c: Config, l: L.State, order: PlaceOrder, id: Option<string>, now: Millis)
    ensures var answered := Answered(c, Placed(l, order, None, now).0, L.EventId(l.nextSequence),
                                     Numbered(l.idPrefix, l.nextOrderId), id, order, now).0;
      answered.account == l.account && answered.cashFunded == l.cashFunded
  {
  }

  // ----- an expiry the ledger is not told about

  function Expiring(): PlaceOrder {
    Order(Buy, 0.45, 10.0, true, Gtd(100))
  }

  /**
   * A maker good until 100 and a book at 100: the engine drops the order, every call succeeds, and the ledger
   * keeps it open.
   */
  lemma SilentExpiry()
    ensures var c := Venue(0, 0.0);
      var s0, s1 := Start(c, 0.0), Quiet(c, 0.0);
      var s2 := Step(c, s1, Submit(Expiring(), None, 1)).0;
      var (s3, r) := Step(c, s2, UpdateBook(TOKEN, Quoted(100), [], []));
      && IsRun(c, 0.0, [s0, s1, s2, s3],
           [UpdateBook(TOKEN, Quoted(0), [], []), Submit(Expiring(), None, 1), UpdateBook(TOKEN, Quoted(100), [], [])])
      && r == Done && s3.engine.resting == map[] && s3.engine.delayed == []
      && s3.ledger.orders.Keys == {Numbered("p", 0)} && !Agree(c, s3, false)
  {
    hide SubmittedTo, BookUpdatedIn, Agree, BookUpdated;
    var c := Venue(0, 0.0);
    var s1 := Quiet(c, 0.0);
    FirstBook(c, 0.0);
    MakerRests(c, s1);
    var s2 := Step(c, s1, Submit(Expiring(), None, 1)).0;
    MakerExpires(c, s2);
  }

  lemma MakerRests(c: Config, s1: Exec)
    requires c == Venue(0, 0.0) && s1 == Quiet(c, 0.0) && Agree(c, s1, false)
    ensures var s2, id := SubmittedTo(c, s1, Expiring(), None, 1).0, Numbered("p", 0);
      && s2.engine == s1.engine.(nextId := 1, resting := map[id := NewOrder(c, s1.engine, Expiring(), None, 1)])
      && s2.ledger.orders == map[id := L.Tracked(L.RecordedOrder(Expiring(), None), L.Resting, 1, 1)]
  {
    hide SubmittedTo, Agree;
    var order := Expiring();
    assert Submitted(c, s1.engine, order, None, 1).1.Some?;
    Opens(c, s1, false, order, 1);
  }

  lemma MakerIsDropped(c: Config, e: Engine)
    requires UnexpiredResting(e.resting, TOKEN, 100) == map[] && e.delayed == [] && e.pending == []
    ensures BookUpdated(c, e, TOKEN, Quoted(100), []) == Engine(e.books[TOKEN := Quoted(100)], map[], [], [], e.nextId)
  {
    hide AfterSweep;
  }

  lemma MakerExpires(c: Config, s2: Exec)
    requires var id := Numbered("p", 0);
      && c == Venue(0, 0.0)
      && s2.engine == Engine(map[TOKEN := Quoted(0)], map[id := LiveOrder(id, Expiring(), 1, 1, None)], [], [], 1)
      && s2.ledger.orders == map[id := L.Tracked(L.RecordedOrder(Expiring(), None), L.Resting, 1, 1)]
    ensures var op := UpdateBook(TOKEN, Quoted(100), [], []);
      var (s3, r) := Step(c, s2, op);
      && Allowed(s2, op) && r == Done && s3.engine.resting == map[] && s3.engine.delayed == []
      && s3.ledger == s2.ledger && !Agree(c, s3, false)
  {
    var id := Numbered("p", 0);
    assert UnexpiredResting(s2.engine.resting, TOKEN, 100) == map[];
    MakerIsDropped(c, s2.engine);
    NothingToRecord(s2.ledger);
    hide BookUpdated, RecordAll, EngineShape, EngineInLedger, LedgerInEngine, PlacementsAnswered;
    NothingToCancel(s2.ledger, 100);
    hide CancelEach;
    var s3 := Step(c, s2, UpdateBook(TOKEN, Quoted(100), [], [])).0;
    assert id in s3.ledger.orders && s3.ledger.orders[id].state == L.Resting;
    NotInEngine(s3.engine, s3.ledger, id);
  }

  // ----- an order that is late

  /** An order that expired at 5, submitted at 10: the call is a plain rejection and the counters part. */
  lemma LateSubmission()
    ensures var c, order := Venue(0, 0.0), Order(Buy, 0.45, 10.0, true, Gtd(5));
      var (s, r) := Step(c, Start(c, 0.0), Submit(order, None, 10));
      r == Rejected && s.engine.nextId == 0 && s.ledger.nextOrderId == 1
  {
    hide L.AvailableCash;
    var c, order := Venue(0, 0.0), Order(Buy, 0.45, 10.0, true, Gtd(5));
    var s := Start(c, 0.0);
    assert L.AvailableCash(s.ledger).None? by { Unfunded(c); }
    StartAgrees(c, 0.0);
    PlacedEffect(s.ledger, order, None, 10);
    AnsweredEffect(c, s.ledger, order, None, None, 10);
    NothingToRecord(Answered(c, Placed(s.ledger, order, None, 10).0, L.EventId(1), Numbered("p", 0), None, order, 10).0);
  }

  lemma Unfunded(c: Config)
    ensures L.AvailableCash(L.New(0.0, c.idPrefix)).None?
  {
  }

  lemma StartAgrees(c: Config, cash: real)
    ensures Agree(c, Start(c, cash), false)
  {
  }

  // ----- a fee nobody reserved

  function Taker20(): PlaceOrder {
    Order(Buy, 0.5, 20.0, false, Gtc)
  }

  /** Ten of cash, twenty bought at one half, one of fee: the call succeeds and the free balance is minus one. */
  lemma FeeOverdraws()
    ensures var c := Venue(0, 1.0);
      var (s, r) := Step(c, Quiet(c, 10.0), Submit(Taker20(), None, 1));
      && Step(c, Start(c, 10.0), UpdateBook(TOKEN, Quoted(0), [], [])) == (Quiet(c, 10.0), Done)
      && r == Done && s.ledger.orders == map[] && L.AvailableCash(s.ledger) == Some(-1.0)
  {
    hide L.Committed, L.AvailableCash, SubmittedTo, BookUpdatedIn;
    var c := Venue(0, 1.0);
    FirstBook(c, 10.0);
    TakerIsFilled(c, Quiet(c, 10.0));
    BalanceIsNegative(SubmittedTo(c, Quiet(c, 10.0), Taker20(), None, 1).0.ledger);
  }

  lemma BalanceIsNegative(l: L.State)
    requires l.cashFunded && l.orders == map[] && l.account.cash == -1.0
    ensures L.AvailableCash(l) == Some(-1.0)
  {
    L.NothingCommitted();
  }

  lemma TakerIsAffordable(c: Config)
    ensures !Unaffordable(Quiet(c, 10.0).ledger, Taker20())
  {
    L.NothingCommitted();
  }

  lemma TakerIsFilled(c: Config, s: Exec)
    requires c == Venue(0, 1.0) && s == Quiet(c, 10.0) && Agree(c, s, false)
    ensures var (t, r) := SubmittedTo(c, s, Taker20(), None, 1);
      r == Done && t.ledger.orders == map[] && t.ledger.cashFunded && t.ledger.account.cash == -1.0
  {
    hide Unaffordable, TakerFill, Placed, Answered, RecordOne, Agree, Submitted;
    var order := Taker20();
    var o := NewOrder(c, s.engine, order, None, 1);
    var fill := Fill(o.orderId, "m", Up, 0.5, 20.0, Buy, 1.0, Taker, 1);
    TakerIsAffordable(c);
    TakerReaches(c, s, o, fill);
    NoPending(c, s, false);
    PlacedEffect(s.ledger, order, None, 1);
    AnsweredEffect(c, s.ledger, order, None, Some(o.orderId), 1);
    AnswersLeaveCash(c, s.ledger, order, Some(o.orderId), 1);
    var answered := Answered(c, Placed(s.ledger, order, None, 1).0, L.EventId(1), o.orderId, Some(o.orderId), order, 1).0;
    assert [fill][..0] == [];
    NothingToRecord(answered);
    FeePaid(answered, fill, order);
    assert RecordAll(answered, [fill]) == RecordOne(answered, fill);
  }

  lemma TakerReaches(c: Config, s: Exec, o: LiveOrder, fill: Fill)
    requires c == Venue(0, 1.0) && s == Quiet(c, 10.0) && o == NewOrder(c, s.engine, Taker20(), None, 1)
    requires fill == Fill(o.orderId, "m", Up, 0.5, 20.0, Buy, 1.0, Taker, 1)
    ensures Submitted(c, s.engine, Taker20(), None, 1) ==
      (s.engine.(nextId := 1, pending := [fill]), Some(o.orderId))
  {
    hide TakerFill;
    BuysTwenty(c, o);
    assert s.engine.books[TokenOf(Taker20())] == Quoted(0) && s.engine.pending + [fill] == [fill];
  }

  lemma BuysTwenty(c: Config, o: LiveOrder)
    requires c == Venue(0, 1.0) && o.order == Taker20() && o.submittedMs == 1
    ensures TakerFill(c, Quoted(0), o, 1) == Some(Fill(o.orderId, "m", Up, 0.5, 20.0, Buy, 1.0, Taker, 1))
  {
    var asks := Quoted(0).asks;
    assert Takes(asks, 20.0, 0.5, Buy) == [20.0];
    assert asks[..0] == [] && [20.0][..0] == [];
  }

  lemma FeePaid(l: L.State, fill: Fill, order: PlaceOrder)
    requires order == Taker20() && fill.price == 0.5 && fill.size == 20.0 && fill.fee == 1.0 && fill.side == Buy
    requires fill.market == "m" && fill.outcome == Up
    requires l.cashFunded && l.account == A.Account(10.0, 0.0, 0.0, [])
    requires l.orders.Keys == {fill.orderId} && l.orders[fill.orderId].order.place == order
    requires l.orders[fill.orderId].state == L.Immediate
    ensures var (m, v) := RecordOne(l, fill);
      v.Ok? && m.orders == map[] && m.account.cash == -1.0 && m.cashFunded
  {
    assert l.orders - {fill.orderId} == map[];
  }

  // ----- a restart that loses a waiting order

  function Waiting(): PlaceOrder {
    Order(Buy, 0.5, 1.0, false, Gtc)
  }

  /** Latency ten: one order at 0, one at 5, and the second cancelled. */
  function Placing(): seq<Op> {
    [Submit(Waiting(), None, 0), Submit(Waiting(), None, 5), Cancel(Numbered("p", 1))]
  }

  ghost function After(n: nat): Exec
    requires n <= 3
  {
    if n == 0 then Start(Venue(10, 0.0), 0.0) else Step(Venue(10, 0.0), After(n - 1), Placing()[n - 1]).0
  }

  function WaitingFrom(now: Millis): L.Tracked {
    L.Tracked(L.RecordedOrder(Waiting(), None), L.Delayed, now, SaturatingAdd(now, 10))
  }

  /** One more waiting order: what the ledger holds and has recorded. */
  lemma OneMoreWaiting(s: Exec, now: Millis)
    requires Agree(Venue(10, 0.0), s, false) && !s.ledger.cashFunded
    ensures var (t, r) := Step(Venue(10, 0.0), s, Submit(Waiting(), None, now));
      && r == Done && Agree(Venue(10, 0.0), t, false) && !t.ledger.cashFunded
      && t.ledger.orders == s.ledger.orders[Numbered("p", s.ledger.nextOrderId) := WaitingFrom(now)]
      && t.ledger.nextOrderId == s.ledger.nextOrderId + 1 && t.ledger.idPrefix == "p"
      && |t.ledger.entries| == |s.ledger.entries| + 2
      && var entry := t.ledger.entries[|s.ledger.entries|];
      && t.ledger.entries == s.ledger.entries + [entry] + [t.ledger.entries[|s.ledger.entries| + 1]]
      && entry.timestampMs == now && entry.event == L.OrderPlaced(L.RecordedOrder(Waiting(), None))
      && !t.ledger.entries[|s.ledger.entries| + 1].event.OrderPlaced?
  {
    hide EngineShape, EngineInLedger, LedgerInEngine;
    var c, order := Venue(10, 0.0), Waiting();
    var (engine, id) := Submitted(c, s.engine, order, None, now);
    assert id == Some(Numbered("p", s.engine.nextId));
    Opens(c, s, false, order, now);
    R.AnswerLogged(c, s.ledger, order, None, id, now);
    NoPending(c, s, false);
    var answered := Answered(c, Placed(s.ledger, order, None, now).0, L.EventId(s.ledger.nextSequence),
                             Numbered(s.ledger.idPrefix, s.ledger.nextOrderId), id, order, now).0;
    NothingToRecord(answered);
  }

  /** The ledger after the three calls. */
  lemma ThreeCalls()
    ensures var c := Venue(10, 0.0);
      var l := After(3).ledger;
      && IsRun(c, 0.0, [After(0), After(1), After(2), After(3)], Placing())
      && (forall i :: 0 <= i < 3 ==> !Step(c, After(i), Placing()[i]).1.Faulted?)
      && l.orders == map[Numbered("p", 0) := WaitingFrom(0)] && l.idPrefix == "p"
      && |l.entries| == 6 && R.Placements(l.entries[..3]) == [l.entries[1]]
      && R.Placements(l.entries) == [l.entries[1], l.entries[3]]
      && l.entries[3].timestampMs == 5 && l.entries[3].event == L.OrderPlaced(L.RecordedOrder(Waiting(), None))
      && !l.entries[4].event.OrderPlaced? && !l.entries[5].event.OrderPlaced?
  {
    hide Step, Agree;
    TwoCalls();
    var l := After(3).ledger;
    assert After(3) == Step(Venue(10, 0.0), After(2), Placing()[2]).0;
    SecondIsCancelled(After(2));
    assert l.entries[..3] == After(2).ledger.entries[..3];
    assert forall i :: 0 <= i < 5 ==> l.entries[i] == After(2).ledger.entries[i];
    FivePlacements(l.entries);
    PlacingIsRun();
  }

  lemma TwoCalls()
    ensures var c, l := Venue(10, 0.0), After(2).ledger;
      && Agree(c, After(2), false) && !Step(c, After(0), Placing()[0]).1.Faulted? && !Step(c, After(1), Placing()[1]).1.Faulted?
      && l.orders == map[Numbered("p", 0) := WaitingFrom(0)][Numbered("p", 1) := WaitingFrom(5)] && l.idPrefix == "p"
      && |l.entries| == 5 && !l.entries[0].event.OrderPlaced? && l.entries[1].event.OrderPlaced?
      && !l.entries[2].event.OrderPlaced? && !l.entries[4].event.OrderPlaced?
      && l.entries[3].timestampMs == 5 && l.entries[3].event == L.OrderPlaced(L.RecordedOrder(Waiting(), None))
  {
    hide Step, Agree;
    var c := Venue(10, 0.0);
    StartAgrees(c, 0.0);
    assert After(1) == Step(c, After(0), Placing()[0]).0;
    OneMoreWaiting(After(0), 0);
    assert After(2) == Step(c, After(1), Placing()[1]).0;
    OneMoreWaiting(After(1), 5);
  }

  lemma PlacingIsRun()
    ensures IsRun(Venue(10, 0.0), 0.0, [After(0), After(1), After(2), After(3)], Placing())
  {
    hide Step;
    var states, ops := [After(0), After(1), After(2), After(3)], Placing();
    forall i | 0 <= i < 3 ensures Allowed(states[i], ops[i]) && states[i + 1] == Step(Venue(10, 0.0), states[i], ops[i]).0 {
      assert states[i] == After(i) && states[i + 1] == After(i + 1);
    }
  }

  lemma SecondIsCancelled(s: Exec)
    requires Agree(Venue(10, 0.0), s, false)
    requires s.ledger.orders == map[Numbered("p", 0) := WaitingFrom(0)][Numbered("p", 1) := WaitingFrom(5)]
    ensures var (t, r) := Step(Venue(10, 0.0), s, Cancel(Numbered("p", 1)));
      && r == Done && t.ledger.orders == map[Numbered("p", 0) := WaitingFrom(0)] && t.ledger.idPrefix == s.ledger.idPrefix
      && |t.ledger.entries| == |s.ledger.entries| + 1 && t.ledger.entries[..|s.ledger.entries|] == s.ledger.entries
      && !t.ledger.entries[|s.ledger.entries|].event.OrderPlaced?
  {
    hide EngineShape, EngineInLedger, PlacementsAnswered, Cancelled;
    var id := Numbered("p", 1);
    NumberedInjective("p", 0, 1);
    assert s.ledger.orders[id].state == L.Delayed && HasDelayed(s.engine, id);
    FoundDelayed(s.engine, id);
    hide Agree;
    assert s.ledger.orders - {id} == map[Numbered("p", 0) := WaitingFrom(0)];
  }

  lemma FoundDelayed(e: Engine, id: string)
    requires HasDelayed(e, id)
    ensures Cancelled(e, id).1
  {
  }

  lemma FivePlacements(es: seq<L.Entry>)
    requires |es| == 6 && !es[0].event.OrderPlaced? && es[1].event.OrderPlaced? && !es[2].event.OrderPlaced?
    requires es[3].event.OrderPlaced? && !es[4].event.OrderPlaced? && !es[5].event.OrderPlaced?
    ensures R.Placements(es[..3]) == [es[1]] && R.Placements(es) == [es[1], es[3]]
  {
    hide R.Placements;
    R.PlacementsGrow(es[..0], es[0]);
    R.PlacementsGrow(es[..1], es[1]);
    R.PlacementsGrow(es[..2], es[2]);
    R.PlacementsGrow(es[..3], es[3]);
    R.PlacementsGrow(es[..4], es[4]);
    R.PlacementsGrow(es[..5], es[5]);
    assert es[..0] == [] && es[..1] == es[..0] + [es[0]] && es[..2] == es[..1] + [es[1]] && es[..3] == es[..2] + [es[2]];
    assert es[..4] == es[..3] + [es[3]] && es[..5] == es[..4] + [es[4]] && es == es[..5] + [es[5]];
    assert R.Placements([]) == [] by { NoPlacements(); }
  }

  lemma NoPlacements()
    ensures R.Placements([]) == []
  {
  }

  /** The ledger holds the first order, the engine rebuilt from it does not. */
  lemma RestartLosesWaitingOrder()
    ensures var c, l, id := Venue(10, 0.0), After(3).ledger, Numbered("p", 0);
      && id in l.orders && l.orders[id].state == L.Delayed && !R.Restorable(c, l)
      && R.RebuiltEngine(c, l).Some? && R.Absent(R.RebuiltEngine(c, l).value, id)
  {
    hide R.Replayed, R.Traced, R.RebuiltSoFar, R.Resubmitted, R.Ready, R.Absent, R.Placements, L.AtRest, Step, IsRun;
    var c, l := Venue(10, 0.0), After(3).ledger;
    ThreeCalls();
    var states, ops := [After(0), After(1), After(2), After(3)], Placing();
    forall i | 0 <= i < 3 ensures Timely(ops[i]) && !Step(c, states[i], ops[i]).1.Faulted? {
      assert states[i] == After(i);
    }
    EngineAndLedgerAgree(c, 0.0, states, ops, 3, true);
    R.RunIsTraced(c, 0.0, states, ops, 3);
    SafeThenNot(c, l);
    R.ReplayedSoFar(c, l, 3);
    var e := R.Replayed(c, l, l.entries[..3]).value;
    R.ReadyAt(c, l, e, 1);
    R.UnsafeSweep(c, l, e, 1, 0);
    R.NextEntryIs(c, l, 3);
    R.NextEntryIs(c, l, 4);
    R.NextEntryIs(c, l, 5);
    assert l.entries[..6] == l.entries;
    StillAbsent(R.Resubmitted(c, l, e, l.entries[3]).value, Numbered("p", 0));
  }

  lemma StillAbsent(e: Engine, id: string)
    requires R.Absent(e, id)
    ensures R.Absent(e.(pending := []), id)
  {
  }

  /** The first placement is safe to submit again; the second one's empty book reaches the first. */
  lemma SafeThenNot(c: Config, l: L.State)
    requires c == Venue(10, 0.0) && l.orders == map[Numbered("p", 0) := WaitingFrom(0)] && l.idPrefix == "p"
    requires |l.entries| == 6 && R.Placements(l.entries[..3]) == [l.entries[1]]
    requires R.Placements(l.entries) == [l.entries[1], l.entries[3]]
    requires l.entries[3].timestampMs == 5 && l.entries[3].event == L.OrderPlaced(L.RecordedOrder(Waiting(), None))
    ensures R.CountIn(l, 3) == 1 && R.SafeFirst(c, l, 1) && !R.Restorable(c, l)
    ensures R.Sweeps(c, l, l.entries[3], 1) && !R.Survives(l.orders[R.Id(l, 0)], R.SweepTime(c, l.entries[3]))
    ensures TokenOf(l.orders[R.Id(l, 0)].order.place) == TokenOf(l.entries[3].event.order.place)
  {
    hide R.Placements;
    NumberedInjective("p", 0, 1);
    assert !R.Survives(l.orders[R.Id(l, 0)], R.SweepTime(c, l.entries[3]));
    assert !R.StepSafe(c, l, R.Placements(l.entries)[1], 1);
  }

  // ----- an iteration order that matters to the ledger

  function Wide(): OrderBook {
    OrderBook([Level(0.4, 100.0)], [Level(0.6, 100.0)], 0)
  }

  function Narrow(): OrderBook {
    OrderBook([Level(0.5, 100.0)], [Level(0.52, 100.0)], 3)
  }

  function MakerBuy(): PlaceOrder {
    Order(Buy, 0.55, 10.0, true, Gtc)
  }

  function MakerSell(): PlaceOrder {
    Order(Sell, 0.45, 10.0, true, Gtc)
  }

  function FilledAs(id: string, order: PlaceOrder): Fill {
    Fill(id, "m", Up, order.price, 10.0, order.side, 0.0, Maker, 3)
  }

  /** One resting buy and one resting sell of ten over an account. */
  ghost predicate BothSides(s: Exec, account: A.Account) {
    var buy, sell := Numbered("p", 0), Numbered("p", 1);
    && s.engine.resting == map[buy := LiveOrder(buy, MakerBuy(), 1, 1, None), sell := LiveOrder(sell, MakerSell(), 2, 2, None)]
    && s.engine.delayed == [] && s.engine.pending == []
    && s.ledger.orders == map[buy := L.Tracked(L.RecordedOrder(MakerBuy(), None), L.Resting, 1, 1),
                              sell := L.Tracked(L.RecordedOrder(MakerSell(), None), L.Resting, 2, 2)]
    && s.ledger.account == account
  }

  ghost function BothPlaced(): Exec {
    var c := Venue(0, 0.0);
    var s1 := Step(c, Start(c, 100.0), UpdateBook(TOKEN, Wide(), [], [])).0;
    var s2 := Step(c, s1, Submit(MakerBuy(), None, 1)).0;
    Step(c, s2, Submit(MakerSell(), None, 2)).0
  }

  lemma BothAreResting()
    ensures BothSides(BothPlaced(), Flat())
  {
    hide SubmittedTo, Agree;
    var c := Venue(0, 0.0);
    WideBook(c);
    var s1 := Step(c, Start(c, 100.0), UpdateBook(TOKEN, Wide(), [], [])).0;
    Opens(c, s1, false, MakerBuy(), 1);
    var s2 := Step(c, s1, Submit(MakerBuy(), None, 1)).0;
    NumberedInjective("p", 0, 1);
    Opens(c, s2, false, MakerSell(), 2);
  }

  lemma WideBook(c: Config)
    requires c == Venue(0, 0.0)
    ensures var s1 := Step(c, Start(c, 100.0), UpdateBook(TOKEN, Wide(), [], [])).0;
      && s1 == Exec(EMPTY_ENGINE.(books := map[TOKEN := Wide()]), L.New(100.0, "p"), 0)
      && Agree(c, s1, false) && !Unaffordable(s1.ledger, MakerBuy())
  {
    hide L.Committed;
    var s0 := Start(c, 100.0);
    assert BookUpdated(c, s0.engine, TOKEN, Wide(), []) == EMPTY_ENGINE.(books := map[TOKEN := Wide()]);
    NothingToRecord(s0.ledger);
    L.NothingCommitted();
  }

  lemma BothFill(s: Exec, account: A.Account, visit: seq<string>)
    requires BothSides(s, account)
    ensures var c, buy, sell := Venue(0, 0.0), Numbered("p", 0), Numbered("p", 1);
      && IsVisitOf([buy, sell], s.engine, TOKEN, Narrow()) && IsVisitOf([sell, buy], s.engine, TOKEN, Narrow())
      && var engine := BookUpdated(c, s.engine, TOKEN, Narrow(), visit);
      && (visit == [buy, sell] ==> engine.pending == [FilledAs(buy, MakerBuy()), FilledAs(sell, MakerSell())])
      && (visit == [sell, buy] ==> engine.pending == [FilledAs(sell, MakerSell()), FilledAs(buy, MakerBuy())])
      && engine.resting == map[]
  {
    hide AfterSweep, MakerFill, Swept, SweepFills, Crossed;
    var c, buy, sell := Venue(0, 0.0), Numbered("p", 0), Numbered("p", 1);
    NumberedInjective("p", 0, 1);
    var resting := UnexpiredResting(s.engine.resting, TOKEN, 3);
    assert resting == s.engine.resting;
    MakerFills(c, resting[buy]);
    MakerFills(c, resting[sell]);
    TwoVisited(c, Narrow(), resting, buy, sell);
    TwoVisited(c, Narrow(), resting, sell, buy);
    SweptClean(c, resting);
  }

  /** Either maker crosses the narrow book and fills completely. */
  lemma MakerFills(c: Config, o: LiveOrder)
    requires c == Venue(0, 0.0) && (o.order == MakerBuy() || o.order == MakerSell()) && o.submittedMs <= 3 && o.activeAtMs <= 3
    ensures Crossed(o, TOKEN, Narrow()) && MakerFill(c, Narrow(), o) == Some(FilledAs(o.orderId, o.order))
    ensures AfterSweep(c, TOKEN, Narrow(), o).None?
  {
  }

  lemma SweptClean(c: Config, resting: map<string, LiveOrder>)
    requires forall id :: id in resting ==> AfterSweep(c, TOKEN, Narrow(), resting[id]).None?
    ensures Swept(c, TOKEN, Narrow(), resting) == map[]
  {
    hide AfterSweep;
  }

  lemma TwoVisited(c: Config, book: OrderBook, resting: map<string, LiveOrder>, one: string, two: string)
    ensures SweepFills(c, book, resting, [one, two]) == FillAt(c, book, resting, one) + FillAt(c, book, resting, two)
  {
    hide FillAt;
    assert [one, two][..1] == [one] && [one][..0] == [];
    assert SweepFills(c, book, resting, [one]) == SweepFills(c, book, resting, []) + FillAt(c, book, resting, one);
  }

  lemma TwoRecorded(l: L.State, one: Fill, two: Fill)
    ensures RecordAll(l, [one, two]) ==
      if RecordOne(l, one).1.Err? then RecordOne(l, one) else RecordOne(RecordOne(l, one).0, two)
  {
    hide RecordOne;
    assert [one, two][..1] == [one] && [one][..0] == [];
    NothingToRecord(l);
    assert RecordAll(l, [one]) == RecordOne(l, one);
  }

  /**
   * The same update, two iteration orders of the resting map: the engine ends the same, but the ledger books
   * both fills in one order and refuses the sale in the other, keeping both orders open that the engine no
   * longer has.
   */
  lemma VisitingOrderMattersToTheLedger()
    ensures var c, s, buy, sell := Venue(0, 0.0), BothPlaced(), Numbered("p", 0), Numbered("p", 1);
      && IsVisitOf([buy, sell], s.engine, TOKEN, Narrow()) && IsVisitOf([sell, buy], s.engine, TOKEN, Narrow())
      && var (one, r1) := BookUpdatedIn(c, s, TOKEN, Narrow(), [buy, sell], []);
      && var (two, r2) := BookUpdatedIn(c, s, TOKEN, Narrow(), [sell, buy], []);
      && one.engine == two.engine && one.engine.resting == map[]
      && r1 == Done && one.ledger.account.cash == 99.0 && one.ledger.orders == map[]
      && r2 == Faulted(L.AccountingFailed(A.InsufficientPosition)) && two.ledger.orders == s.ledger.orders
  {
    BothAreResting();
    hide BothPlaced;
    UpdatedBothWays(BothPlaced());
  }

  lemma UpdatedBothWays(s: Exec)
    requires BothSides(s, Flat())
    ensures var c, buy, sell := Venue(0, 0.0), Numbered("p", 0), Numbered("p", 1);
      && IsVisitOf([buy, sell], s.engine, TOKEN, Narrow()) && IsVisitOf([sell, buy], s.engine, TOKEN, Narrow())
      && var (one, r1) := BookUpdatedIn(c, s, TOKEN, Narrow(), [buy, sell], []);
      && var (two, r2) := BookUpdatedIn(c, s, TOKEN, Narrow(), [sell, buy], []);
      && one.engine == two.engine && one.engine.resting == map[]
      && r1 == Done && one.ledger.account.cash == 99.0 && one.ledger.orders == map[]
      && r2 == Faulted(L.AccountingFailed(A.InsufficientPosition)) && two.ledger.orders == s.ledger.orders
  {
    hide BookUpdated, IsVisitOf, RecordOne, RecordAll, CancelEach;
    var c, buy, sell := Venue(0, 0.0), Numbered("p", 0), Numbered("p", 1);
    BothFill(s, Flat(), [buy, sell]);
    BothFill(s, Flat(), [sell, buy]);
    VisitingOrderIrrelevant(c, s.engine, TOKEN, Narrow(), [buy, sell], [sell, buy]);
    var bought, sold := FilledAs(buy, MakerBuy()), FilledAs(sell, MakerSell());
    TwoRecorded(s.ledger, bought, sold);
    TwoRecorded(s.ledger, sold, bought);
    NumberedInjective("p", 0, 1);
    BuyThenSell(s.ledger, bought, sold);
    NothingToCancel(RecordAll(s.ledger, [bought, sold]).0, 3);
  }

  lemma NothingToCancel(l: L.State, now: Millis)
    ensures CancelEach(l, [], now) == (l, L.Ok)
  {
  }

  function Flat(): A.Account {
    A.Account(100.0, 0.0, 0.0, [])
  }

  function Long(): A.Account {
    A.Account(94.5, 0.0, 0.0, [A.Position("m", Up, 10.0, 0.55)])
  }

  lemma BoughtTen()
    ensures A.Filled(Flat(), A.LedgerFill("m", Up, Buy, 0.55, 10.0, 0.0)) == (Long(), A.Accepted)
  {
    hide A.Increased, A.Reduced, A.Held;
    assert Notional(0.55, 10.0) == 5.5;
    assert [] + [A.Position("m", Up, 10.0, 0.55)] == [A.Position("m", Up, 10.0, 0.55)];
  }

  lemma SoldTen()
    ensures var sale := A.LedgerFill("m", Up, Sell, 0.45, 10.0, 0.0);
      && A.Filled(Long(), sale).1 == A.Accepted && A.Filled(Long(), sale).0.cash == 99.0
      && A.Filled(Flat(), sale) == (Flat(), A.Refused(A.InsufficientPosition))
  {
    hide A.Increased, A.Reduced, A.Bought;
    assert Notional(0.45, 10.0) == 4.5;
    assert A.Held(Long().positions, "m", Up).quantity == 10.0 && A.Held([], "m", Up).quantity == 0.0;
  }

  lemma BuyThenSell(l: L.State, bought: Fill, sold: Fill)
    requires bought == FilledAs(Numbered("p", 0), MakerBuy()) && sold == FilledAs(Numbered("p", 1), MakerSell())
    requires l.account == A.Account(100.0, 0.0, 0.0, [])
    requires l.orders.Keys == {bought.orderId, sold.orderId} && bought.orderId != sold.orderId
    requires l.orders[bought.orderId].order.place == MakerBuy() && l.orders[sold.orderId].order.place == MakerSell()
    ensures var (m, v) := RecordOne(l, bought);
      && v.Ok? && RecordOne(m, sold).1.Ok? && RecordOne(m, sold).0.account.cash == 99.0
      && RecordOne(m, sold).0.orders == map[]
    ensures RecordOne(l, sold).1 == L.Err(L.AccountingFailed(A.InsufficientPosition))
    ensures RecordOne(l, sold).0.orders == l.orders
  {
    hide A.Filled;
    BoughtTen();
    SoldTen();
    var m := RecordOne(l, bought).0;
    assert m.orders == l.orders - {bought.orderId};
    assert m.orders - {sold.orderId} == map[];
  }

  // ----- an iteration order that is booked either way and still shows

  function Holding(): A.Account {
    A.Account(100.0, 0.0, 0.0, [A.Position("m", Up, 10.0, 0.3)])
  }

  function Averaged(): A.Account {
    A.Account(94.5, 0.0, 0.0, [A.Position("m", Up, 20.0, 0.425)])
  }

  function BuyTen(): A.LedgerFill {
    A.LedgerFill("m", Up, Buy, 0.55, 10.0, 0.0)
  }

  function SellTen(): A.LedgerFill {
    A.LedgerFill("m", Up, Sell, 0.45, 10.0, 0.0)
  }

  lemma AveragedUp()
    ensures A.Filled(Holding(), BuyTen()) == (Averaged(), A.Accepted)
  {
    hide A.Reduced, A.Held;
    var ps := Holding().positions;
    assert Notional(0.3, 10.0) == 3.0 && Notional(0.55, 10.0) == 5.5 && 8.5 / 20.0 == 0.425;
    assert A.IndexOf(ps, "m", Up) == 0;
    assert A.Increased(ps[0], 10.0, 0.55) == A.Position("m", Up, 20.0, 0.425);
    assert ps[0 := A.Position("m", Up, 20.0, 0.425)] == Averaged().positions;
  }

  lemma SoldAfter()
    ensures A.Filled(Averaged(), SellTen()).1 == A.Accepted && A.Filled(Averaged(), SellTen()).0.realizedPnl == 0.25
  {
    hide A.Reduced, A.Bought;
    assert A.Held(Averaged().positions, "m", Up) == Averaged().positions[0];
    assert Notional(0.45 - 0.425, 10.0) == 0.25;
  }

  lemma SoldBefore()
    ensures var (sold, status) := A.Filled(Holding(), SellTen());
      status == A.Accepted && sold.realizedPnl == 1.5 && sold.positions == []
  {
    hide A.Bought;
    var ps := Holding().positions;
    assert A.Held(ps, "m", Up) == ps[0] && A.IndexOf(ps, "m", Up) == 0;
    assert Notional(0.45 - 0.3, 10.0) == 1.5;
    var emptied := ps[0 := ps[0].(quantity := 0.0)];
    assert emptied[..0] == [];
    assert A.NonEmpty(emptied) == A.NonEmpty(emptied[..0]);
  }

  lemma BoughtAfresh(a: A.Account)
    requires a.positions == []
    ensures A.Filled(a, BuyTen()).1 == A.Accepted && A.Filled(a, BuyTen()).0.realizedPnl == a.realizedPnl
  {
    hide A.Reduced, A.Held, Notional;
  }

  /** Ten held at 0.3, ten more bought at 0.55, ten sold at 0.45: the profit depends on which comes first. */
  lemma ProfitDependsOnOrder()
    ensures var bought, sold := A.Filled(Holding(), BuyTen()), A.Filled(Holding(), SellTen());
      && bought.1 == A.Accepted && A.Filled(bought.0, SellTen()).1 == A.Accepted
      && A.Filled(bought.0, SellTen()).0.realizedPnl == 0.25
      && sold.1 == A.Accepted && A.Filled(sold.0, BuyTen()).1 == A.Accepted
      && A.Filled(sold.0, BuyTen()).0.realizedPnl == 1.5
  {
    hide A.Filled;
    AveragedUp();
    SoldAfter();
    SoldBefore();
    BoughtAfresh(A.Filled(Holding(), SellTen()).0);
  }

  /**
   * Over a holding of ten, both iteration orders of one update are booked completely, and yet leave different
   * realized profits: 0.25 when the purchase is booked first, 1.5 when the sale is.
   */
  lemma BothOrdersBookedDifferently(s: Exec)
    requires BothSides(s, Holding())
    ensures var c, buy, sell := Venue(0, 0.0), Numbered("p", 0), Numbered("p", 1);
      && IsVisitOf([buy, sell], s.engine, TOKEN, Narrow()) && IsVisitOf([sell, buy], s.engine, TOKEN, Narrow())
      && var (one, r1) := BookUpdatedIn(c, s, TOKEN, Narrow(), [buy, sell], []);
      && var (two, r2) := BookUpdatedIn(c, s, TOKEN, Narrow(), [sell, buy], []);
      && r1 == Done && r2 == Done && one.engine == two.engine
      && one.ledger.account.realizedPnl == 0.25 && two.ledger.account.realizedPnl == 1.5
  {
    hide BookUpdated, IsVisitOf, RecordOne, RecordAll, CancelEach;
    var c, buy, sell := Venue(0, 0.0), Numbered("p", 0), Numbered("p", 1);
    BothFill(s, Holding(), [buy, sell]);
    BothFill(s, Holding(), [sell, buy]);
    VisitingOrderIrrelevant(c, s.engine, TOKEN, Narrow(), [buy, sell], [sell, buy]);
    var bought, sold := FilledAs(buy, MakerBuy()), FilledAs(sell, MakerSell());
    TwoRecorded(s.ledger, bought, sold);
    TwoRecorded(s.ledger, sold, bought);
    NumberedInjective("p", 0, 1);
    EitherOrder(s.ledger, bought, sold);
    NothingToCancel(RecordAll(s.ledger, [bought, sold]).0, 3);
    NothingToCancel(RecordAll(s.ledger, [sold, bought]).0, 3);
  }

  lemma EitherOrder(l: L.State, bought: Fill, sold: Fill)
    requires bought == FilledAs(Numbered("p", 0), MakerBuy()) && sold == FilledAs(Numbered("p", 1), MakerSell())
    requires l.account == Holding()
    requires l.orders.Keys == {bought.orderId, sold.orderId} && bought.orderId != sold.orderId
    requires l.orders[bought.orderId].order.place == MakerBuy() && l.orders[sold.orderId].order.place == MakerSell()
    ensures var (m, v) := RecordOne(l, bought);
      v.Ok? && RecordOne(m, sold).1.Ok? && RecordOne(m, sold).0.account.realizedPnl == 0.25
    ensures var (m, v) := RecordOne(l, sold);
      v.Ok? && RecordOne(m, bought).1.Ok? && RecordOne(m, bought).0.account.realizedPnl == 1.5
  {
    hide A.Filled;
    ProfitDependsOnOrder();
  }

  // ----- a fill the accounting refuses

  function Bid(): PlaceOrder {
    Order(Buy, 0.45, 10.0, true, Gtc)
  }

  function Fallen(): OrderBook {
    OrderBook([Level(0.3, 100.0)], [Level(0.42, 100.0)], 3)
  }

  function Rebated(id: string): Fill {
    Fill(id, "m", Up, 0.45, 10.0, Buy, -0.1, Maker, 3)
  }

  ghost function BidResting(): Exec {
    Step(Venue(0, -0.1), Quiet(Venue(0, -0.1), 100.0), Submit(Bid(), None, 1)).0
  }

  ghost predicate OneBid(s: Exec) {
    var id := Numbered("p", 0);
    && s.engine.resting == map[id := LiveOrder(id, Bid(), 1, 1, None)] && s.engine.delayed == [] && s.engine.pending == []
    && s.ledger.orders == map[id := L.Tracked(L.RecordedOrder(Bid(), None), L.Resting, 1, 1)]
  }

  lemma BidRests()
    ensures OneBid(BidResting()) && Step(Venue(0, -0.1), Quiet(Venue(0, -0.1), 100.0), Submit(Bid(), None, 1)).1 == Done
  {
    hide SubmittedTo, Agree, BookUpdatedIn, L.Committed;
    var c := Venue(0, -0.1);
    FirstBook(c, 100.0);
    L.NothingCommitted();
    Opens(c, Quiet(c, 100.0), false, Bid(), 1);
  }

  lemma BidFills(c: Config, s: Exec)
    requires c == Venue(0, -0.1) && OneBid(s)
    ensures var id := Numbered("p", 0);
      var engine := BookUpdated(c, s.engine, TOKEN, Fallen(), [id]);
      && IsVisitOf([id], s.engine, TOKEN, Fallen())
      && engine.pending == [Rebated(id)] && engine.resting == map[] && engine.delayed == []
  {
    hide AfterSweep, MakerFill, Crossed;
    var id := Numbered("p", 0);
    var resting := UnexpiredResting(s.engine.resting, TOKEN, 3);
    assert resting == s.engine.resting;
    BidIsMatched(c, resting[id]);
    assert [id][..0] == [];
    assert SweepFills(c, Fallen(), resting, [id]) == SweepFills(c, Fallen(), resting, []) + FillAt(c, Fallen(), resting, id);
  }

  lemma BidIsMatched(c: Config, o: LiveOrder)
    requires c == Venue(0, -0.1) && o.order == Bid() && o.submittedMs <= 3 && o.activeAtMs <= 3
    ensures Crossed(o, TOKEN, Fallen()) && MakerFill(c, Fallen(), o) == Some(Rebated(o.orderId))
    ensures AfterSweep(c, TOKEN, Fallen(), o).None?
  {
  }

  lemma RebateIsRefused(l: L.State, id: string)
    requires id in l.orders && l.orders[id].order.place == Bid()
    ensures RecordAll(l, [Rebated(id)]) == (l, L.Err(L.AccountingFailed(A.NegativeValue)))
  {
    assert [Rebated(id)][..0] == [];
    NothingToRecord(l);
    assert RecordAll(l, [Rebated(id)]) == RecordOne(l, Rebated(id));
  }

  /**
   * A venue that pays makers a rebate, which is a negative fee: the update that fills the bid is refused, and the
   * engine no longer has the order that the ledger keeps open.
   */
  lemma RebateStrandsOrder()
    ensures var c, id, s := Venue(0, -0.1), Numbered("p", 0), BidResting();
      var (t, r) := Step(c, s, UpdateBook(TOKEN, Fallen(), [id], []));
      && Step(c, Start(c, 100.0), UpdateBook(TOKEN, Quoted(0), [], [])) == (Quiet(c, 100.0), Done)
      && Step(c, Quiet(c, 100.0), Submit(Bid(), None, 1)) == (s, Done)
      && IsVisitOf([id], s.engine, TOKEN, Fallen())
      && r == Faulted(L.AccountingFailed(A.NegativeValue))
      && t.engine.resting == map[] && t.engine.delayed == [] && t.ledger == s.ledger
      && id in t.ledger.orders && t.ledger.orders[id].state == L.Resting
  {
    var c, id := Venue(0, -0.1), Numbered("p", 0);
    BidRests();
    FirstBook(c, 100.0);
    hide BidResting, SubmittedTo, BookUpdated, RecordAll, CancelEach, IsVisitOf;
    assert Step(c, Quiet(c, 100.0), Submit(Bid(), None, 1)).0 == BidResting() by { BidRestingIs(); }
    BidFills(c, BidResting());
    RebateIsRefused(BidResting().ledger, id);
  }

  lemma BidRestingIs()
    ensures BidResting() == Step(Venue(0, -0.1), Quiet(Venue(0, -0.1), 100.0), Submit(Bid(), None, 1)).0
  {
  }
}
