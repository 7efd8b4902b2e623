/** A live ledger is determined by what it has recorded: sums over its entries give its account and its orders. */
module LedgerLog {
  import opened Trading
  import opened Numerals
  import A = Accounting
  import M = AccountMoves
  import L = Ledger

  // ----- single calls

  /**
   * A settlement is recorded if and only if it settles exactly the position held, for nonnegative proceeds. It then
   * pays exactly the proceeds, realizes them less the cost of the position, removes that position and nothing else.
   */
  lemma SettlementPays(l: L.State, now: Millis, market: string, outcome: Outcome, size: real, proceeds: real)
    requires A.Sound(l.account.positions)
    ensures var held := A.Held(l.account.positions, market, outcome);
      var (m, v) := L.Append(l, now, L.Settlement(market, outcome, size, proceeds));
      var a, b := l.account, m.account;
      && (v.Ok? <==> size > 0.0 && proceeds >= 0.0 && held.quantity == size)
      && (v.Err? ==> m == l)
      && (v.Ok? ==>
        && b.cash == a.cash + proceeds && b.fees == a.fees
        && b.realizedPnl == a.realizedPnl + proceeds - held.averageEntry * size
        && held in a.positions && M.OthersStay(a.positions, b.positions, market, outcome)
        && (forall p :: p in b.positions ==> !M.OfToken(p, market, outcome))
        && m.orders == l.orders && m.placements == l.placements && m.nextOrderId == l.nextOrderId)
  {
    hide A.Settled, M.OthersStay, A.Sound;
    var held := A.Held(l.account.positions, market, outcome);
    if size > 0.0 && proceeds >= 0.0 && held.quantity == size {
      M.SettlementMoves(l.account, market, outcome, proceeds / size);
      assert proceeds / size >= 0.0 && (proceeds / size) * size == proceeds;
    }
  }

  /** Exactly the fills of an open order's token and side, within its remainder and the holding, are recorded. */
  lemma FillRecordedIff(l: L.State, now: Millis, id: string, f: A.LedgerFill)
    requires A.Sound(l.account.positions) && f.quantity != 0.0
    ensures var v := L.Append(l, now, L.FillRecorded(id, f)).1;
      v.Ok? <==>
        && id in l.orders
        && var order := l.orders[id].order.place;
        && order.market == f.market && order.outcome == f.outcome && order.side == f.side
        && 0.0 < f.quantity <= order.qty && f.price >= 0.0 && f.fee >= 0.0
        && (f.side == Sell ==> A.Held(l.account.positions, f.market, f.outcome).quantity >= f.quantity)
  {
    hide A.Filled, L.AfterFill, A.Sound;
    if id in l.orders && L.FillMatches(l.orders[id], f) {
      NegativeIsRefused(l.account, f);
      if f.price >= 0.0 && f.fee >= 0.0 && f.quantity > 0.0 {
        match f.side {
          case Buy => M.PurchaseMoves(l.account, f);
          case Sell => M.SaleMoves(l.account, f);
        }
      }
    }
  }

  lemma NegativeIsRefused(a: A.Account, f: A.LedgerFill)
    ensures f.price < 0.0 || f.quantity < 0.0 || f.fee < 0.0 ==> A.Filled(a, f).1.Refused?
  {
  }

  /** What is recorded is also queued for storage, and a refused call queues nothing: no entry is ever missed by a drain. */
  lemma RecordedIsQueued(l: L.State, now: Millis, event: L.Event)
    ensures var (m, v) := L.Append(l, now, event);
      var added := if v.Ok? then [L.Entry("paper-ledger-" + Decimal(l.nextSequence), l.nextSequence, now, event)] else [];
      m.entries == l.entries + added && m.pending == l.pending + added
  {
    hide L.Apply, Decimal;
    L.ApplyFrame(l, L.NextEntry(l, now, event));
    assert L.EventId(l.nextSequence) == "paper-ledger-" + Decimal(l.nextSequence);
  }

  // ----- sums over the log

  function Total(amount: L.Event -> real, es: seq<L.Entry>): real {
    if es == [] then 0.0 else Total(amount, es[..|es| - 1]) + amount(es[|es| - 1].event)
  }

  lemma TotalSnoc(amount: L.Event -> real, es: seq<L.Entry>, e: L.Entry)
    ensures Total(amount, es + [e]) == Total(amount, es) + amount(e.event)
  {
    assert (es + [e])[..|es|] == es;
  }

  function CashFlow(): L.Event -> real {
    (e: L.Event) =>
      match e
      case CashMovement(amount) => amount
      case FillRecorded(_, f) =>
        if f.side == Buy then -(f.price * f.quantity) - f.fee else f.price * f.quantity - f.fee
      case Settlement(_, _, _, proceeds) => proceeds
      case _ => 0.0
  }

  function FeeFlow(): L.Event -> real {
    (e: L.Event) => if e.FillRecorded? then e.fill.fee else 0.0
  }

  /** What an entry adds to the holding of one token. */
  function Flow(market: string, outcome: Outcome): L.Event -> real {
    (e: L.Event) =>
      match e
      case FillRecorded(_, f) =>
        if f.market != market || f.outcome != outcome then 0.0 else if f.side == Buy then f.quantity else -f.quantity
      case Settlement(m, o, size, _) => if m == market && o == outcome then -size else 0.0
      case _ => 0.0
  }

  /** Cash, fees and every holding are sums over the entries; only leaked fees are not on record. */
  ghost predicate AccountOnRecord(a: A.Account, es: seq<L.Entry>, leaked: real) {
    && a.cash == Total(CashFlow(), es)
    && a.fees == Total(FeeFlow(), es) + leaked
    && forall market, outcome :: A.Held(a.positions, market, outcome).quantity == Total(Flow(market, outcome), es)
  }

  lemma OtherHoldingStays(before: seq<A.Position>, after: seq<A.Position>, market: string, outcome: Outcome, m: string, o: Outcome)
    requires A.Unique(before) && A.Unique(after) && M.OthersStay(before, after, market, outcome)
    requires m != market || o != outcome
    ensures A.Held(after, m, o).quantity == A.Held(before, m, o).quantity
  {
    hide A.Held, A.Unique;
    M.LookUp(before, m, o);
    M.LookUp(after, m, o);
    assert forall p :: M.OfToken(p, m, o) ==> (p in before <==> p in after);
    if A.Held(before, m, o) !in before && A.Held(after, m, o) !in after {
      assert A.Held(before, m, o).quantity == A.Held(after, m, o).quantity;
    }
  }

  lemma HoldingIs(ps: seq<A.Position>, market: string, outcome: Outcome, quantity: real)
    requires A.Unique(ps) && M.Holds(ps, market, outcome, quantity)
    ensures A.Held(ps, market, outcome).quantity == quantity
  {
    hide A.Held;
    M.LookUp(ps, market, outcome);
  }

  lemma NothingHeld(ps: seq<A.Position>, market: string, outcome: Outcome)
    requires forall p :: p in ps ==> !M.OfToken(p, market, outcome)
    ensures A.Held(ps, market, outcome).quantity == 0.0
  {
    assert forall j :: 0 <= j < |ps| ==> !M.OfToken(ps[j], market, outcome);
  }

  /** How one accepted fill or settlement moves every holding. */
  lemma HoldingsMove(l: L.State, call: L.Call, market: string, outcome: Outcome)
    requires A.Sound(l.account.positions) && L.IsCall(call) && L.Append(l, call.timestampMs, call.event).1.Ok?
    ensures A.Held(L.Append(l, call.timestampMs, call.event).0.account.positions, market, outcome).quantity
      == A.Held(l.account.positions, market, outcome).quantity + Flow(market, outcome)(call.event)
  {
    hide A.Held, A.Unique, A.Positive;
    var m := L.Append(l, call.timestampMs, call.event).0;
    var ps, qs := l.account.positions, m.account.positions;
    L.ApplyKeepsSound(l, L.NextEntry(l, call.timestampMs, call.event));
    match call.event {
      case FillRecorded(_, f) =>
        FillMovesHolding(l, call, f);
        if market != f.market || outcome != f.outcome {
          OtherHoldingStays(ps, qs, f.market, f.outcome, market, outcome);
        }
      case Settlement(sm, so, size, proceeds) =>
        SettlementPays(l, call.timestampMs, sm, so, size, proceeds);
        if market != sm || outcome != so {
          OtherHoldingStays(ps, qs, sm, so, market, outcome);
        } else {
          NothingHeld(qs, sm, so);
        }
      case _ => L.AccountUntouched(l, L.NextEntry(l, call.timestampMs, call.event));
    }
  }

  lemma RestIsHeld(ps: seq<A.Position>, rest: A.Position)
    requires A.Unique(ps) && M.OnlyRest(ps, rest)
    ensures A.Held(ps, rest.market, rest.outcome).quantity == rest.quantity
  {
    hide A.Held;
    M.LookUp(ps, rest.market, rest.outcome);
    if rest !in ps {
      NothingHeld(ps, rest.market, rest.outcome);
    }
  }

  lemma FillMovesHolding(l: L.State, call: L.Call, f: A.LedgerFill)
    requires A.Sound(l.account.positions) && L.IsCall(call) && call.event.FillRecorded? && call.event.fill == f
    requires L.Append(l, call.timestampMs, call.event).1.Ok?
    ensures var a, b := l.account, L.Append(l, call.timestampMs, call.event).0.account;
      && M.OthersStay(a.positions, b.positions, f.market, f.outcome)
      && A.Held(b.positions, f.market, f.outcome).quantity
           == A.Held(a.positions, f.market, f.outcome).quantity + (if f.side == Buy then f.quantity else -f.quantity)
      && b.cash == a.cash + (if f.side == Buy then -(f.price * f.quantity) - f.fee else f.price * f.quantity - f.fee)
      && b.fees == a.fees + f.fee
  {
    hide A.Filled, M.OthersStay, M.Holds, M.Costs, M.OnlyRest, L.AfterFill, A.Unique, A.Positive, A.Held, L.FillMatches;
    NegativeIsRefused(l.account, f);
    L.ApplyKeepsSound(l, L.NextEntry(l, call.timestampMs, call.event));
    var qs := A.Filled(l.account, f).0.positions;
    var held := A.Held(l.account.positions, f.market, f.outcome);
    HeldNames(l.account.positions, f.market, f.outcome);
    match f.side {
      case Buy =>
        M.PurchaseMoves(l.account, f);
        HoldingIs(qs, f.market, f.outcome, held.quantity + f.quantity);
      case Sell =>
        M.SaleMoves(l.account, f);
        RestIsHeld(qs, held.(quantity := held.quantity - f.quantity));
    }
  }

  lemma HeldNames(ps: seq<A.Position>, market: string, outcome: Outcome)
    ensures M.OfToken(A.Held(ps, market, outcome), market, outcome)
  {
  }

  lemma CashMoves(l: L.State, call: L.Call)
    requires A.Sound(l.account.positions) && L.IsCall(call) && L.Append(l, call.timestampMs, call.event).1.Ok?
    ensures var a, b := l.account, L.Append(l, call.timestampMs, call.event).0.account;
      b.cash == a.cash + CashFlow()(call.event) && b.fees == a.fees + FeeFlow()(call.event)
  {
    hide A.Held, A.Sound;
    match call.event {
      case FillRecorded(_, f) => FillMovesHolding(l, call, f);
      case Settlement(market, outcome, size, proceeds) =>
        SettlementPays(l, call.timestampMs, market, outcome, size, proceeds);
      case _ => L.AccountUntouched(l, L.NextEntry(l, call.timestampMs, call.event));
    }
  }

  lemma AccountStaysOnRecord(l: L.State, call: L.Call, leaked: real)
    requires L.WellFormed(l) && L.IsCall(call) && AccountOnRecord(l.account, l.entries, leaked)
    ensures var m := L.Append(l, call.timestampMs, call.event).0;
      AccountOnRecord(m.account, m.entries, leaked + L.LeakedFee(l, call.event))
  {
    hide A.Held, A.Sound, L.Apply, CashFlow, FeeFlow, Flow, Total, L.LeakedFee;
    var (m, v) := L.Append(l, call.timestampMs, call.event);
    var entry := L.NextEntry(l, call.timestampMs, call.event);
    if v.Ok? {
      L.AcceptedCallDoesNotLeak(l, call);
      EntriesGrow(l, call);
      CashMoves(l, call);
      TotalSnoc(CashFlow(), l.entries, entry);
      TotalSnoc(FeeFlow(), l.entries, entry);
      forall market, outcome ensures A.Held(m.account.positions, market, outcome).quantity == Total(Flow(market, outcome), m.entries) {
        HoldingsMove(l, call, market, outcome);
        TotalSnoc(Flow(market, outcome), l.entries, entry);
      }
    } else {
      L.RefusedCall(l, call);
    }
  }

  lemma EntriesGrow(l: L.State, call: L.Call)
    requires L.Append(l, call.timestampMs, call.event).1.Ok?
    ensures L.Append(l, call.timestampMs, call.event).0.entries == l.entries + [L.NextEntry(l, call.timestampMs, call.event)]
  {
    hide L.Apply;
    L.ApplyFrame(l, L.NextEntry(l, call.timestampMs, call.event));
  }

  lemma StartsOnRecord(initialCash: real, idPrefix: string)
    ensures var l := L.New(initialCash, idPrefix); AccountOnRecord(l.account, l.entries, 0.0)
  {
    hide CashFlow, FeeFlow, Flow;
    var l := L.New(initialCash, idPrefix);
    var entry := l.entries[0];
    assert l.entries == [] + [entry];
    TotalSnoc(CashFlow(), [], entry);
    TotalSnoc(FeeFlow(), [], entry);
    OpeningFlows(entry.event);
    forall market, outcome ensures A.Held([], market, outcome).quantity == Total(Flow(market, outcome), l.entries) {
      TotalSnoc(Flow(market, outcome), [], entry);
    }
  }

  lemma OpeningFlows(e: L.Event)
    requires e.CashMovement?
    ensures CashFlow()(e) == e.amount && FeeFlow()(e) == 0.0
    ensures forall market, outcome :: Flow(market, outcome)(e) == 0.0
  {
  }

  /**
   * In every run, accepted and refused calls alike, cash is what was paid in, earned and paid out by the entries
   * recorded, fees are theirs plus those of refused oversells, and the holding of every token is what they bought less
   * what they sold and settled.
   */
  lemma {:induction false} AccountIsOnRecord(initialCash: real, idPrefix: string, calls: seq<L.Call>)
    requires forall i :: 0 <= i < |calls| ==> L.IsCall(calls[i])
    ensures var l := L.Live(initialCash, idPrefix, calls);
      AccountOnRecord(l.account, l.entries, L.LeakedFees(initialCash, idPrefix, calls))
    decreases |calls|
  {
    hide L.Append, L.New, L.WellFormed, AccountOnRecord, L.LeakedFee;
    if calls == [] {
      StartsOnRecord(initialCash, idPrefix);
    } else {
      var n := |calls| - 1;
      AccountIsOnRecord(initialCash, idPrefix, calls[..n]);
      L.ReplayMirrorsLive(initialCash, idPrefix, calls[..n]);
      AccountStaysOnRecord(
        L.Live(initialCash, idPrefix, calls[..n]), calls[n], L.LeakedFees(initialCash, idPrefix, calls[..n]));
    }
  }
}
