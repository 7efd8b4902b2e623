/** The paper account's append-only ledger and its reconstruction from recorded entries. */
module Ledger {
  import opened Trading
  import opened Numerals
  import A = Accounting

  datatype OrderState = Immediate | Resting | Delayed

  datatype RecordedOrder = RecordedOrder(place: PlaceOrder, strategy: Option<string>)

  datatype Event =
    | CashMovement(amount: real)
    | OrderPlaced(order: RecordedOrder)
    | OrderAck(placementId: string, orderId: string, state: OrderState, activeAtMs: Millis)
    | OrderRejected(placementId: string, orderId: string)
    | OrderCancelled(orderId: string)
    | FillRecorded(orderId: string, fill: A.LedgerFill)
    | Settlement(market: string, outcome: Outcome, settledSize: real, proceeds: real)

  datatype Entry = Entry(eventId: string, sequence: nat, timestampMs: Millis, event: Event)

  datatype PlacementOutcome = Ack(state: OrderState) | Rejected

  datatype Placement = Placement(
    order: RecordedOrder, expectedOrderId: string, terminal: Option<PlacementOutcome>)

  datatype Tracked = Tracked(order: RecordedOrder, state: OrderState, submittedMs: Millis, activeAtMs: Millis)

  datatype Error =
    | SequenceGap
    | ConflictingDuplicate
    | Inconsistent
    | AccountingFailed(error: A.AccountingError)

  datatype Verdict = Ok | Err(error: Error)

  datatype State = State(
    account: A.Account,
    entries: seq<Entry>,
    pending: seq<Entry>,
    placements: map<string, Placement>,
    orders: map<string, Tracked>,
    nextSequence: nat,
    nextOrderId: nat,
    fillCount: nat,
    idPrefix: string,
    cashFunded: bool)

  function EventId(n: nat): string {
    Numbered("paper-ledger", n)
  }

  function Blank(initialCash: real, idPrefix: string): State {
    State(A.Account(initialCash, 0.0, 0.0, []), [], [], map[], map[], 0, 0, 0, idPrefix, initialCash > 0.0)
  }

  function New(initialCash: real, idPrefix: string): State {
    var entry := Entry(EventId(0), 0, 0, CashMovement(initialCash));
    Blank(initialCash, idPrefix).(entries := [entry], pending := [entry], nextSequence := 1)
  }

  // ----- one entry

  function WithQty(t: Tracked, qty: real): Tracked {
    t.(order := t.order.(place := t.order.place.(qty := qty)))
  }

  /** What a matched fill leaves of an order: a partly filled maker shrinks, anything else is closed. */
  function Remainder(t: Tracked, size: real): Option<Tracked> {
    if t.state == Resting && size < t.order.place.qty then Some(WithQty(t, t.order.place.qty - size)) else None
  }

  function AfterFill(orders: map<string, Tracked>, id: string, size: real): map<string, Tracked>
    requires id in orders
  {
    match Remainder(orders[id], size)
    case Some(t) => orders[id := t]
    case None => orders - {id}
  }

  predicate FillMatches(t: Tracked, fill: A.LedgerFill) {
    t.order.place.market == fill.market && t.order.place.outcome == fill.outcome &&
    t.order.place.side == fill.side && fill.quantity <= t.order.place.qty
  }

  function ApplyPlacement(l: State, entry: Entry, order: RecordedOrder): (State, Verdict) {
    var expected := Numbered(l.idPrefix, l.nextOrderId);
    var placed := l.(placements := l.placements[entry.eventId := Placement(order, expected, None)]);
    if entry.eventId in l.placements then (placed, Err(ConflictingDuplicate))
    else (placed.(nextOrderId := l.nextOrderId + 1), Ok)
  }

  /** The placement exists, is unanswered, and expects this order id. */
  predicate Answers(l: State, placementId: string, orderId: string) {
    placementId in l.placements && l.placements[placementId].terminal.None? &&
    l.placements[placementId].expectedOrderId == orderId
  }

  function ApplyAck(
    l: State, entry: Entry, placementId: string, orderId: string, state: OrderState, activeAtMs: Millis): (State, Verdict)
  {
    if !Answers(l, placementId, orderId) then (l, Err(Inconsistent))
    else
      var p := l.placements[placementId];
      (l.(orders := l.orders[orderId := Tracked(p.order, state, entry.timestampMs, activeAtMs)],
          placements := l.placements[placementId := p.(terminal := Some(Ack(state)))]), Ok)
  }

  function ApplyRejection(l: State, placementId: string, orderId: string): (State, Verdict) {
    if !Answers(l, placementId, orderId) then (l, Err(Inconsistent))
    else
      var p := l.placements[placementId];
      (l.(placements := l.placements[placementId := p.(terminal := Some(Rejected))]), Ok)
  }

  function ApplyCancel(l: State, orderId: string): (State, Verdict) {
    if orderId !in l.orders then (l, Err(Inconsistent))
    else (l.(orders := l.orders - {orderId}), Ok)
  }

  function ApplyFill(l: State, orderId: string, fill: A.LedgerFill): (State, Verdict) {
    if orderId !in l.orders || !FillMatches(l.orders[orderId], fill) then (l, Err(Inconsistent))
    else
      var (account, status) := A.Filled(l.account, fill);
      match status
      case Refused(error) => (l.(account := account), Err(AccountingFailed(error)))
      case Accepted =>
        (l.(account := account, orders := AfterFill(l.orders, orderId, fill.quantity),
            fillCount := l.fillCount + 1), Ok)
  }

  function ApplySettlement(
    l: State, market: string, outcome: Outcome, settledSize: real, proceeds: real): (State, Verdict)
  {
    if settledSize <= 0.0 || proceeds < 0.0 || A.Held(l.account.positions, market, outcome).quantity != settledSize
    then (l, Err(Inconsistent))
    else
      var (account, status) := A.Settled(l.account, market, outcome, proceeds / settledSize);
      match status
      case Refused(error) => (l.(account := account), Err(AccountingFailed(error)))
      case Accepted => (l.(account := account), Ok)
  }

  /** Applies an entry. A failure can leave the account changed: it is returned as the code leaves it. */
  function Apply(l: State, entry: Entry): (State, Verdict) {
    match entry.event
    case CashMovement(_) => (l, Ok)
    case OrderPlaced(order) => ApplyPlacement(l, entry, order)
    case OrderAck(placementId, orderId, state, activeAtMs) =>
      ApplyAck(l, entry, placementId, orderId, state, activeAtMs)
    case OrderRejected(placementId, orderId) => ApplyRejection(l, placementId, orderId)
    case OrderCancelled(orderId) => ApplyCancel(l, orderId)
    case FillRecorded(orderId, fill) => ApplyFill(l, orderId, fill)
    case Settlement(market, outcome, settledSize, proceeds) =>
      ApplySettlement(l, market, outcome, settledSize, proceeds)
  }

  function NextEntry(l: State, timestampMs: Millis, event: Event): Entry {
    Entry(EventId(l.nextSequence), l.nextSequence, timestampMs, event)
  }

  function Append(l: State, timestampMs: Millis, event: Event): (State, Verdict) {
    var entry := NextEntry(l, timestampMs, event);
    var (applied, verdict) := Apply(l, entry);
    if verdict.Err? then (applied, verdict)
    else
      (applied.(nextSequence := applied.nextSequence + 1, entries := applied.entries + [entry],
                pending := applied.pending + [entry]), Ok)
  }

  // ----- reconstruction

  function WithId(es: seq<Entry>, id: string): Option<Entry> {
    if es == [] then None
    else if es[|es| - 1].eventId == id then Some(es[|es| - 1])
    else WithId(es[..|es| - 1], id)
  }

  /** Entries with exact repetitions dropped; nothing when one identity names two records. */
  function Deduplicated(es: seq<Entry>): Option<seq<Entry>> {
    if es == [] then Some([])
    else
      match Deduplicated(es[..|es| - 1])
      case None => None
      case Some(unique) =>
        var last := es[|es| - 1];
        match WithId(unique, last.eventId)
        case None => Some(unique + [last])
        case Some(previous) => if previous == last then Some(unique) else None
  }

  function CashIn(es: seq<Entry>): real {
    if es == [] then 0.0
    else CashIn(es[..|es| - 1]) + (match es[|es| - 1].event case CashMovement(amount) => amount case _ => 0.0)
  }

  function Replay(l: State, es: seq<Entry>): (State, Verdict) {
    if es == [] then (l, Ok)
    else
      var (m, verdict) := Replay(l, es[..|es| - 1]);
      var last := es[|es| - 1];
      if verdict.Err? then (m, verdict)
      else if last.sequence != m.nextSequence then (m, Err(SequenceGap))
      else
        var (applied, v) := Apply(m, last);
        if v.Err? then (applied, v) else (applied.(nextSequence := applied.nextSequence + 1), Ok)
  }

  /** Every placement was answered and no immediate order is still waiting for its fill. */
  predicate AtRest(l: State) {
    (forall id :: id in l.placements ==> l.placements[id].terminal.Some?) &&
    (forall id :: id in l.orders ==> l.orders[id].state != Immediate)
  }

  datatype Rebuilt = Rebuilt(state: State) | Failed(error: Error)

  function Reconstruct(es: seq<Entry>, idPrefix: string): Rebuilt {
    match Deduplicated(es)
    case None => Failed(ConflictingDuplicate)
    case Some(unique) =>
      var (l, verdict) := Replay(Blank(CashIn(unique), idPrefix), unique);
      if verdict.Err? then Failed(verdict.error)
      else if !AtRest(l) then Failed(Inconsistent)
      else Rebuilt(l.(entries := unique))
  }

  // ----- live runs

  /** One ledger call after creation; only creation books cash. */
  datatype Call = Call(timestampMs: Millis, event: Event)

  ghost predicate IsCall(call: Call) {
    !call.event.CashMovement? &&
    (call.event.FillRecorded? ==> !A.BuysNothing(A.Trade(call.event.fill)))
  }

  function Live(initialCash: real, idPrefix: string, calls: seq<Call>): State {
    if calls == [] then New(initialCash, idPrefix)
    else
      var last := calls[|calls| - 1];
      Append(Live(initialCash, idPrefix, calls[..|calls| - 1]), last.timestampMs, last.event).0
  }

  /** The call is a matched sale of more than is held, with a fee: the guard of the leaking branch. */
  predicate LeakyCall(l: State, event: Event) {
    event.FillRecorded? && event.orderId in l.orders && FillMatches(l.orders[event.orderId], event.fill) &&
    A.OversellWithFee(l.account, A.Trade(event.fill))
  }

  function LeakedFee(l: State, event: Event): real {
    if LeakyCall(l, event) then event.fill.fee else 0.0
  }

  function LeakedFees(initialCash: real, idPrefix: string, calls: seq<Call>): real {
    if calls == [] then 0.0
    else
      var n := |calls| - 1;
      LeakedFees(initialCash, idPrefix, calls[..n]) + LeakedFee(Live(initialCash, idPrefix, calls[..n]), calls[n].event)
  }

  /** The live state without its logs and without leaked fees. */
  function Shadow(l: State, leaked: real): State {
    l.(entries := [], pending := [], account := l.account.(fees := l.account.fees - leaked))
  }

  lemma FillFeesWriteOnly(l: State, leaked: real, orderId: string, fill: A.LedgerFill)
    ensures var (m, verdict) := ApplyFill(l, orderId, fill);
      ApplyFill(Shadow(l, leaked), orderId, fill) == (Shadow(m, leaked), verdict)
  {
    hide A.Filled, AfterFill, FillMatches;
    A.FeesAreWriteOnly(l.account, A.Trade(fill), leaked);
  }

  lemma SettlementFeesWriteOnly(
    l: State, leaked: real, market: string, outcome: Outcome, settledSize: real, proceeds: real)
    ensures var (m, verdict) := ApplySettlement(l, market, outcome, settledSize, proceeds);
      ApplySettlement(Shadow(l, leaked), market, outcome, settledSize, proceeds) == (Shadow(m, leaked), verdict)
  {
    hide A.Settled, A.Held;
    if settledSize > 0.0 {
      A.FeesAreWriteOnly(l.account, A.Settle(market, outcome, proceeds / settledSize), leaked);
    }
  }

  /** Nothing but the fee total itself depends on the fee total. */
  lemma FeesAreWriteOnly(l: State, leaked: real, entry: Entry)
    ensures var (m, verdict) := Apply(l, entry);
      Apply(Shadow(l, leaked), entry) == (Shadow(m, leaked), verdict)
  {
    hide ApplyFill, ApplySettlement;
    match entry.event {
      case FillRecorded(orderId, fill) => FillFeesWriteOnly(l, leaked, orderId, fill);
      case Settlement(market, outcome, settledSize, proceeds) =>
        SettlementFeesWriteOnly(l, leaked, market, outcome, settledSize, proceeds);
      case _ =>
    }
  }

  ghost predicate Numbering(es: seq<Entry>) {
    forall i :: 0 <= i < |es| ==> es[i].eventId == EventId(i) && es[i].sequence == i
  }

  ghost predicate WellFormed(l: State) {
    Numbering(l.entries) && |l.entries| == l.nextSequence && A.Sound(l.account.positions) &&
    forall k: nat :: k >= l.nextSequence ==> EventId(k) !in l.placements
  }

  lemma ApplyKeepsSound(l: State, entry: Entry)
    requires A.Sound(l.account.positions)
    requires entry.event.FillRecorded? ==> !A.BuysNothing(A.Trade(entry.event.fill))
    ensures A.Sound(Apply(l, entry).0.account.positions)
  {
    hide A.Filled, A.Settled, A.Sound, AfterFill, ApplyAck, ApplyPlacement, ApplyRejection;
    match entry.event {
      case FillRecorded(_, fill) => A.StepConserves(l.account, A.Trade(fill));
      case Settlement(market, outcome, settledSize, proceeds) =>
        if settledSize > 0.0 {
          A.StepConserves(l.account, A.Settle(market, outcome, proceeds / settledSize));
        }
      case _ => AccountUntouched(l, entry);
    }
  }

  lemma AccountUntouched(l: State, entry: Entry)
    requires !entry.event.FillRecorded? && !entry.event.Settlement?
    ensures Apply(l, entry).0.account == l.account
  {
  }

  /** Applying an entry leaves the logs and the sequence alone and adds at most its own placement. */
  lemma ApplyFrame(l: State, entry: Entry)
    ensures var m := Apply(l, entry).0;
      m.entries == l.entries && m.pending == l.pending && m.nextSequence == l.nextSequence &&
      m.idPrefix == l.idPrefix && m.cashFunded == l.cashFunded &&
      m.placements.Keys <= l.placements.Keys + {entry.eventId}
  {
    hide A.Filled, A.Settled, A.Held, AfterFill, FillMatches;
  }

  lemma AppendKeepsWellFormed(l: State, call: Call)
    requires WellFormed(l) && IsCall(call)
    ensures WellFormed(Append(l, call.timestampMs, call.event).0)
  {
    hide Apply, A.Sound;
    var entry := NextEntry(l, call.timestampMs, call.event);
    var l' := Append(l, call.timestampMs, call.event).0;
    ApplyKeepsSound(l, entry);
    ApplyFrame(l, entry);
    forall k: nat | k >= l'.nextSequence && Append(l, call.timestampMs, call.event).1.Ok?
      ensures EventId(k) !in l'.placements
    {
      NumberedInjective("paper-ledger", k, l.nextSequence);
      assert EventId(k) !in l.placements;
    }
    if Append(l, call.timestampMs, call.event).1.Err? {
      RefusedCall(l, call);
    }
  }

  /** A refused call records nothing and changes nothing, except a leaked fee. */
  lemma RefusedCall(l: State, call: Call)
    requires WellFormed(l) && IsCall(call) && Append(l, call.timestampMs, call.event).1.Err?
    ensures Append(l, call.timestampMs, call.event).0
         == l.(account := l.account.(fees := l.account.fees + LeakedFee(l, call.event)))
  {
    hide A.Sound, A.Bought, A.Reduced, A.Held, AfterFill;
    assert EventId(l.nextSequence) !in l.placements;
    if call.event.FillRecorded? {
      var fill := call.event.fill;
      if fill.side == Buy && fill.quantity > 0.0 {
        A.BoughtKeeps(l.account.positions, fill.market, fill.outcome, fill.quantity, fill.price);
      }
    }
  }

  lemma AcceptedCallDoesNotLeak(l: State, call: Call)
    requires Append(l, call.timestampMs, call.event).1.Ok?
    ensures LeakedFee(l, call.event) == 0.0
  {
  }

  lemma ReplayOfNew(initialCash: real, idPrefix: string)
    ensures var l := New(initialCash, idPrefix);
      WellFormed(l) && CashIn(l.entries) == initialCash &&
      Replay(Blank(initialCash, idPrefix), l.entries) == (Shadow(l, 0.0), Ok)
  {
    var l, blank := New(initialCash, idPrefix), Blank(initialCash, idPrefix);
    assert l.entries[..0] == [];
    assert Replay(blank, l.entries[..0]) == (blank, Ok);
  }

  /** Replaying what a run recorded mirrors the run, step by step. */
  lemma {:induction false} ReplayMirrorsLive(initialCash: real, idPrefix: string, calls: seq<Call>)
    requires forall i :: 0 <= i < |calls| ==> IsCall(calls[i])
    ensures var l := Live(initialCash, idPrefix, calls);
      WellFormed(l) && CashIn(l.entries) == initialCash &&
      Replay(Blank(initialCash, idPrefix), l.entries) == (Shadow(l, LeakedFees(initialCash, idPrefix, calls)), Ok)
    decreases |calls|
  {
    hide Append, WellFormed, Blank, New, LeakyCall, CashIn, Replay;
    if calls == [] {
      ReplayOfNew(initialCash, idPrefix);
    } else {
      var n := |calls| - 1;
      ReplayMirrorsLive(initialCash, idPrefix, calls[..n]);
      var before, call := Live(initialCash, idPrefix, calls[..n]), calls[n];
      var leaked := LeakedFees(initialCash, idPrefix, calls[..n]);
      AppendKeepsWellFormed(before, call);
      if Append(before, call.timestampMs, call.event).1.Ok? {
        AcceptedCallDoesNotLeak(before, call);
        ReplayOneMore(Blank(initialCash, idPrefix), before, call, leaked);
      } else {
        RefusedCall(before, call);
      }
    }
  }

  lemma ReplayOneMore(blank: State, l: State, call: Call, leaked: real)
    requires WellFormed(l) && !call.event.CashMovement? && Append(l, call.timestampMs, call.event).1.Ok?
    requires Replay(blank, l.entries) == (Shadow(l, leaked), Ok)
    ensures var l' := Append(l, call.timestampMs, call.event).0;
      Replay(blank, l'.entries) == (Shadow(l', leaked), Ok) && CashIn(l'.entries) == CashIn(l.entries)
  {
    hide Apply;
    var entry := NextEntry(l, call.timestampMs, call.event);
    var l' := Append(l, call.timestampMs, call.event).0;
    ApplyFrame(l, entry);
    assert l'.entries == l.entries + [entry];
    assert l'.entries[..|l.entries|] == l.entries;
    FeesAreWriteOnly(l, leaked, entry);
  }

  // ----- duplicates

  /** `es` is `entries` with exact repetitions inserted after their first occurrence. */
  ghost predicate WithRepetitions(es: seq<Entry>, entries: seq<Entry>) {
    if es == [] then entries == []
    else
      var n := |es| - 1;
      (es[n] in es[..n] && WithRepetitions(es[..n], entries)) ||
      (entries != [] && es[n] == entries[|entries| - 1] && WithRepetitions(es[..n], entries[..|entries| - 1]))
  }

  lemma {:induction false} WithIdFinds(es: seq<Entry>, id: string)
    requires Numbering(es)
    ensures match WithId(es, id)
      case None => forall e :: e in es ==> e.eventId != id
      case Some(e) => e in es && e.eventId == id
    ensures forall e :: e in es && e.eventId == id ==> WithId(es, id) == Some(e)
    decreases |es|
  {
    if es != [] {
      var n := |es| - 1;
      WithIdFinds(es[..n], id);
      assert forall e :: e in es <==> e in es[..n] || e == es[n];
      forall i | 0 <= i < n ensures es[i].eventId != es[n].eventId {
        NumberedInjective("paper-ledger", i, n);
      }
    }
  }

  lemma NewIdIsFresh(entries: seq<Entry>)
    requires Numbering(entries) && entries != []
    ensures var m := |entries| - 1;
      Numbering(entries[..m]) && WithId(entries[..m], entries[m].eventId) == None
  {
    var m := |entries| - 1;
    WithIdFinds(entries[..m], entries[m].eventId);
    forall i | 0 <= i < m ensures entries[i].eventId != entries[m].eventId {
      NumberedInjective("paper-ledger", i, m);
    }
  }

  lemma {:induction false} DeduplicationRestores(es: seq<Entry>, entries: seq<Entry>)
    requires Numbering(entries) && WithRepetitions(es, entries)
    ensures Deduplicated(es) == Some(entries)
    ensures forall e :: e in es ==> e in entries
    decreases |es|
  {
    hide WithId, Numbering;
    if es != [] {
      var n := |es| - 1;
      var last := es[n];
      if last in es[..n] && WithRepetitions(es[..n], entries) {
        DeduplicationRestores(es[..n], entries);
        WithIdFinds(entries, last.eventId);
      } else {
        var m := |entries| - 1;
        NewIdIsFresh(entries);
        DeduplicationRestores(es[..n], entries[..m]);
        assert entries == entries[..m] + [last];
      }
    }
  }

  // ----- replay equals live

  lemma LeakedFeeSign(l: State, event: Event)
    ensures LeakedFee(l, event) >= 0.0 && (LeakedFee(l, event) == 0.0 <==> !LeakyCall(l, event))
  {
  }

  lemma {:induction false} LeakedFeesExactly(initialCash: real, idPrefix: string, calls: seq<Call>)
    ensures LeakedFees(initialCash, idPrefix, calls) >= 0.0
    ensures LeakedFees(initialCash, idPrefix, calls) == 0.0 <==>
      forall i :: 0 <= i < |calls| ==> !LeakyCall(Live(initialCash, idPrefix, calls[..i]), calls[i].event)
    decreases |calls|
  {
    hide Live, LeakyCall, LeakedFee;
    if calls != [] {
      var n := |calls| - 1;
      LeakedFeesExactly(initialCash, idPrefix, calls[..n]);
      LeakedFeeSign(Live(initialCash, idPrefix, calls[..n]), calls[n].event);
      assert forall i :: 0 <= i < n ==> calls[..n][..i] == calls[..i];
    }
  }

  lemma ShadowAtRest(l: State, leaked: real)
    ensures AtRest(Shadow(l, leaked)) == AtRest(l)
  {
  }

  lemma LiveNumbering(l: State)
    requires WellFormed(l)
    ensures Numbering(l.entries)
  {
  }

  /**
   * For every run of ledger calls, accepted or refused, and any repetition of the recorded entries:
   * reconstruction succeeds exactly when the live ledger is at rest; it then yields the live ledger
   * with nothing pending, except that fees of refused oversells are missing; and it yields the live
   * ledger itself exactly when no call of the run was such an oversell.
   */
  lemma ReplayEqualsLive(initialCash: real, idPrefix: string, calls: seq<Call>, es: seq<Entry>)
    requires forall i :: 0 <= i < |calls| ==> IsCall(calls[i])
    requires WithRepetitions(es, Live(initialCash, idPrefix, calls).entries)
    ensures var live := Live(initialCash, idPrefix, calls);
      var rebuilt := Reconstruct(es, idPrefix);
      (rebuilt.Rebuilt? <==> AtRest(live)) &&
      (rebuilt.Rebuilt? ==>
        rebuilt.state == live.(pending := [], account := live.account.(
          fees := live.account.fees - LeakedFees(initialCash, idPrefix, calls)))) &&
      (AtRest(live) ==>
        (rebuilt == Rebuilt(live.(pending := [])) <==>
         forall i :: 0 <= i < |calls| ==> !LeakyCall(Live(initialCash, idPrefix, calls[..i]), calls[i].event)))
  {
    hide Live, Replay, Deduplicated, CashIn, LeakedFees, LeakyCall, AtRest, WellFormed, WithRepetitions, Blank;
    ReplayMirrorsLive(initialCash, idPrefix, calls);
    ShadowAtRest(Live(initialCash, idPrefix, calls), LeakedFees(initialCash, idPrefix, calls));
    LiveNumbering(Live(initialCash, idPrefix, calls));
    DeduplicationRestores(es, Live(initialCash, idPrefix, calls).entries);
    LeakedFeesExactly(initialCash, idPrefix, calls);
  }

  /** The recorded entries themselves are one such repetition. */
  lemma {:induction false} NoRepetitions(entries: seq<Entry>)
    ensures WithRepetitions(entries, entries)
    decreases |entries|
  {
    if entries != [] {
      NoRepetitions(entries[..|entries| - 1]);
    }
  }

  /** A run's own entries rebuild it, exactly, if and only if it is at rest and no call leaked a fee. */
  lemma OwnEntriesRestore(initialCash: real, idPrefix: string, calls: seq<Call>)
    requires forall i :: 0 <= i < |calls| ==> IsCall(calls[i])
    ensures var live := Live(initialCash, idPrefix, calls);
      Reconstruct(live.entries, idPrefix) == Rebuilt(live.(pending := [])) <==>
      AtRest(live) && forall i :: 0 <= i < |calls| ==> !LeakyCall(Live(initialCash, idPrefix, calls[..i]), calls[i].event)
  {
    hide Live, Reconstruct, LeakedFees, LeakyCall, AtRest, IsCall;
    var live := Live(initialCash, idPrefix, calls);
    NoRepetitions(live.entries);
    ReplayEqualsLive(initialCash, idPrefix, calls, live.entries);
  }

  // ----- cash held against open buys

  function Reserve(t: Tracked): real {
    if t.order.place.side == Buy then Notional(t.order.place.price, t.order.place.qty) else 0.0
  }

  /** Notional of the open buy orders, whatever order the map is visited in. */
  ghost function Committed(orders: map<string, Tracked>): real
    decreases |orders|
  {
    if orders == map[] then 0.0
    else
      var id :| id in orders;
      Reserve(orders[id]) + Committed(orders - {id})
  }

  lemma {:induction false} CommittedSplit(orders: map<string, Tracked>, id: string)
    requires id in orders
    ensures Committed(orders) == Reserve(orders[id]) + Committed(orders - {id})
    decreases |orders|
  {
    hide Reserve;
    var first :| first in orders && Committed(orders) == Reserve(orders[first]) + Committed(orders - {first});
    if first != id {
      CommittedSplit(orders - {first}, id);
      CommittedSplit(orders - {id}, first);
      assert orders - {first} - {id} == orders - {id} - {first};
    }
  }

  lemma CommittedUpdate(orders: map<string, Tracked>, id: string, t: Tracked)
    ensures Committed(orders[id := t])
         == Committed(orders) + Reserve(t) - if id in orders then Reserve(orders[id]) else 0.0
  {
    hide Reserve, Committed;
    CommittedSplit(orders[id := t], id);
    if id in orders {
      CommittedSplit(orders, id);
      assert orders[id := t] - {id} == orders - {id};
    } else {
      assert orders[id := t] - {id} == orders;
    }
  }

  /** Cash free to commit; nothing when the run declared no cash. */
  ghost function AvailableCash(l: State): Option<real> {
    if l.cashFunded then Some(l.account.cash - Committed(l.orders)) else None
  }

  // ----- the ledger as an object

  class PaperLedger {
    const idPrefix: string
    const account: A.PortfolioLedger
    const cashFunded: bool
    var entries: seq<Entry>
    var pending: seq<Entry>
    var placements: map<string, Placement>
    var orders: map<string, Tracked>
    var nextSequence: nat
    var nextOrderId: nat
    var fillCount: nat

    function Value(): State
      reads this, account
    {
      State(account.Value(), entries, pending, placements, orders, nextSequence, nextOrderId, fillCount,
            idPrefix, cashFunded)
    }

    constructor Empty(initialCash: real, idPrefix: string)
      ensures Value() == Blank(initialCash, idPrefix) && fresh(account)
    {
      this.idPrefix := idPrefix;
      account := new A.PortfolioLedger(initialCash);
      cashFunded := initialCash > 0.0;
      entries, pending, placements, orders, nextSequence, nextOrderId, fillCount := [], [], map[], map[], 0, 0, 0;
    }

    constructor (initialCash: real, idPrefix: string)
      ensures Value() == New(initialCash, idPrefix) && fresh(account)
    {
      var entry := Entry(EventId(0), 0, 0, CashMovement(initialCash));
      this.idPrefix := idPrefix;
      account := new A.PortfolioLedger(initialCash);
      cashFunded := initialCash > 0.0;
      entries, pending, placements, orders := [entry], [entry], map[], map[];
      nextSequence, nextOrderId, fillCount := 1, 0, 0;
    }

    method ApplyEntry(entry: Entry) returns (v: Verdict)
      modifies this, account
      ensures Value() == Apply(old(Value()), entry).0 && v == Apply(old(Value()), entry).1
    {
      hide ApplyAck, ApplyRejection, ApplyPlacement, ApplyFill, ApplySettlement;
      match entry.event {
        case CashMovement(_) => v := Ok;
        case OrderPlaced(order) => v := Place(entry, order);
        case OrderAck(placementId, orderId, state, activeAtMs) =>
          v := Acknowledge(entry, placementId, orderId, state, activeAtMs);
        case OrderRejected(placementId, orderId) => v := Reject(placementId, orderId);
        case OrderCancelled(orderId) =>
          if orderId !in orders {
            return Err(Inconsistent);
          }
          orders := orders - {orderId};
          v := Ok;
        case FillRecorded(orderId, fill) => v := RecordFill(orderId, fill);
        case Settlement(market, outcome, settledSize, proceeds) =>
          v := RecordSettlement(market, outcome, settledSize, proceeds);
      }
    }

    method Place(entry: Entry, order: RecordedOrder) returns (v: Verdict)
      modifies this
      ensures Value() == ApplyPlacement(old(Value()), entry, order).0
      ensures v == ApplyPlacement(old(Value()), entry, order).1
    {
      var present := entry.eventId in placements;
      placements := placements[entry.eventId := Placement(order, Numbered(idPrefix, nextOrderId), None)];
      if present {
        return Err(ConflictingDuplicate);
      }
      nextOrderId := nextOrderId + 1;
      v := Ok;
    }

    method Acknowledge(entry: Entry, placementId: string, orderId: string, state: OrderState, activeAtMs: Millis)
      returns (v: Verdict)
      modifies this
      ensures Value() == ApplyAck(old(Value()), entry, placementId, orderId, state, activeAtMs).0
      ensures v == ApplyAck(old(Value()), entry, placementId, orderId, state, activeAtMs).1
    {
      if placementId !in placements {
        return Err(Inconsistent);
      }
      var p := placements[placementId];
      if p.terminal.Some? || p.expectedOrderId != orderId {
        return Err(Inconsistent);
      }
      orders := orders[orderId := Tracked(p.order, state, entry.timestampMs, activeAtMs)];
      placements := placements[placementId := p.(terminal := Some(Ack(state)))];
      v := Ok;
    }

    method Reject(placementId: string, orderId: string) returns (v: Verdict)
      modifies this
      ensures Value() == ApplyRejection(old(Value()), placementId, orderId).0
      ensures v == ApplyRejection(old(Value()), placementId, orderId).1
    {
      if placementId !in placements {
        return Err(Inconsistent);
      }
      var p := placements[placementId];
      if p.terminal.Some? || p.expectedOrderId != orderId {
        return Err(Inconsistent);
      }
      placements := placements[placementId := p.(terminal := Some(Rejected))];
      v := Ok;
    }

    method RecordFill(orderId: string, fill: A.LedgerFill) returns (v: Verdict)
      modifies this, account
      ensures Value() == ApplyFill(old(Value()), orderId, fill).0 && v == ApplyFill(old(Value()), orderId, fill).1
    {
      hide A.Filled;
      if orderId !in orders || !FillMatches(orders[orderId], fill) {
        return Err(Inconsistent);
      }
      var status := account.ApplyFill(fill);
      if status.Refused? {
        return Err(AccountingFailed(status.error));
      }
      var t := orders[orderId];
      if t.state == Resting && fill.quantity < t.order.place.qty {
        orders := orders[orderId := WithQty(t, t.order.place.qty - fill.quantity)];
      } else {
        orders := orders - {orderId};
      }
      fillCount := fillCount + 1;
      v := Ok;
    }

    method RecordSettlement(market: string, outcome: Outcome, settledSize: real, proceeds: real) returns (v: Verdict)
      modifies this, account
      ensures Value() == ApplySettlement(old(Value()), market, outcome, settledSize, proceeds).0
      ensures v == ApplySettlement(old(Value()), market, outcome, settledSize, proceeds).1
    {
      hide A.Settled;
      var held := A.Held(account.positions, market, outcome).quantity;
      if settledSize <= 0.0 || proceeds < 0.0 || held != settledSize {
        return Err(Inconsistent);
      }
      var status := account.Settle(market, outcome, proceeds / settledSize);
      v := if status.Refused? then Err(AccountingFailed(status.error)) else Ok;
    }

    method AppendEvent(timestampMs: Millis, event: Event) returns (v: Verdict)
      modifies this, account
      ensures Value() == Append(old(Value()), timestampMs, event).0
      ensures v == Append(old(Value()), timestampMs, event).1
    {
      hide Apply;
      var entry := Entry(EventId(nextSequence), nextSequence, timestampMs, event);
      v := ApplyEntry(entry);
      if v.Err? {
        return;
      }
      nextSequence := nextSequence + 1;
      entries := entries + [entry];
      pending := pending + [entry];
    }

    method FreeCash() returns (r: Option<real>)
      ensures r == AvailableCash(Value())
    {
      hide Reserve, Committed;
      if !cashFunded {
        return None;
      }
      var todo, committed := orders, 0.0;
      NothingCommitted();
      while todo != map[]
        invariant committed + Committed(todo) == Committed(orders)
        decreases |todo|
      {
        var id :| id in todo;
        CommittedSplit(todo, id);
        committed := committed + Reserve(todo[id]);
        todo := todo - {id};
      }
      r := Some(account.cash - committed);
    }

    method DrainPending() returns (drained: seq<Entry>)
      modifies this`pending
      ensures drained == old(pending) && pending == []
    {
      drained := pending;
      pending := [];
    }
  }

  lemma NothingCommitted()
    ensures Committed(map[]) == 0.0
  {
  }

  method Deduplicate(es: seq<Entry>) returns (r: Option<seq<Entry>>)
    ensures r == Deduplicated(es)
  {
    var unique: seq<Entry> := [];
    var i := 0;
    while i < |es|
      invariant 0 <= i <= |es| && Deduplicated(es[..i]) == Some(unique)
    {
      assert es[..i + 1][..i] == es[..i];
      var seen := WithId(unique, es[i].eventId);
      if seen.Some? {
        if seen.value != es[i] {
          ConflictPersists(es, i + 1);
          return None;
        }
      } else {
        unique := unique + [es[i]];
      }
      i := i + 1;
    }
    assert es[..i] == es;
    r := Some(unique);
  }

  lemma {:induction false} ConflictPersists(es: seq<Entry>, i: nat)
    requires i <= |es| && Deduplicated(es[..i]).None?
    ensures Deduplicated(es).None?
    decreases |es| - i
  {
    if i == |es| {
      assert es[..i] == es;
    } else {
      assert es[..i + 1][..i] == es[..i];
      ConflictPersists(es, i + 1);
    }
  }

  /** Rebuilds a ledger from recorded entries, or reports why it cannot. */
  method Restore(es: seq<Entry>, idPrefix: string) returns (r: Rebuilt)
    ensures r == Reconstruct(es, idPrefix)
  {
    hide Apply, Replay, Deduplicated, CashIn, AtRest;
    var unique := Deduplicate(es);
    if unique.None? {
      return Failed(ConflictingDuplicate);
    }
    var us := unique.value;
    var cash := SumCash(us);
    var ledger := new PaperLedger.Empty(cash, idPrefix);
    assert us[..0] == [];
    ReplayNothing(Blank(cash, idPrefix));
    var i := 0;
    while i < |us|
      invariant 0 <= i <= |us| && fresh(ledger) && fresh(ledger.account)
      invariant Replay(Blank(cash, idPrefix), us[..i]) == (ledger.Value(), Ok)
    {
      ReplayNext(Blank(cash, idPrefix), us, i);
      if us[i].sequence != ledger.nextSequence {
        FailurePersists(Blank(cash, idPrefix), us, i + 1);
        return Failed(SequenceGap);
      }
      var v := ledger.ApplyEntry(us[i]);
      if v.Err? {
        FailurePersists(Blank(cash, idPrefix), us, i + 1);
        return Failed(v.error);
      }
      ledger.nextSequence := ledger.nextSequence + 1;
      i := i + 1;
    }
    assert us[..i] == us;
    if !AtRest(ledger.Value()) {
      return Failed(Inconsistent);
    }
    ledger.entries := us;
    r := Rebuilt(ledger.Value());
  }

  lemma ReplayNothing(l: State)
    ensures Replay(l, []) == (l, Ok)
  {
  }

  lemma ReplayNext(l: State, es: seq<Entry>, i: nat)
    requires i < |es| && Replay(l, es[..i]).1.Ok?
    ensures var m := Replay(l, es[..i]).0;
      var (applied, v) := Apply(m, es[i]);
      Replay(l, es[..i + 1]) ==
        if es[i].sequence != m.nextSequence then (m, Err(SequenceGap))
        else if v.Err? then (applied, v)
        else (applied.(nextSequence := applied.nextSequence + 1), Ok)
  {
    hide Apply;
    assert es[..i + 1][..i] == es[..i];
  }

  method SumCash(es: seq<Entry>) returns (sum: real)
    ensures sum == CashIn(es)
  {
    sum := 0.0;
    var i := 0;
    while i < |es|
      invariant 0 <= i <= |es| && sum == CashIn(es[..i])
    {
      assert es[..i + 1][..i] == es[..i];
      if es[i].event.CashMovement? {
        sum := sum + es[i].event.amount;
      }
      i := i + 1;
    }
    assert es[..i] == es;
  }

  lemma {:induction false} FailurePersists(l: State, es: seq<Entry>, i: nat)
    requires i <= |es| && Replay(l, es[..i]).1.Err?
    ensures Replay(l, es).1 == Replay(l, es[..i]).1
    decreases |es| - i
  {
    hide Apply;
    if i == |es| {
      assert es[..i] == es;
    } else {
      assert es[..i + 1][..i] == es[..i];
      FailurePersists(l, es, i + 1);
    }
  }
}
