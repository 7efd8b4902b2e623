/** The placements and the open orders of a live ledger, told from the entries it has recorded. */
module OrderLog {
  import opened Trading
  import opened Numerals
  import A = Accounting
  import L = Ledger
  import opened LedgerLog

  // ----- reading the log

  /** How many orders were placed. */
  function PlacedCount(es: seq<L.Entry>): nat {
    if es == [] then 0 else PlacedCount(es[..|es| - 1]) + if es[|es| - 1].event.OrderPlaced? then 1 else 0
  }

  /** How many fills were recorded. */
  function FillsCounted(es: seq<L.Entry>): nat {
    if es == [] then 0 else FillsCounted(es[..|es| - 1]) + if es[|es| - 1].event.FillRecorded? then 1 else 0
  }

  /** How much of an order was filled. */
  function FilledOf(es: seq<L.Entry>, id: string): real {
    if es == [] then 0.0
    else
      var e := es[|es| - 1].event;
      FilledOf(es[..|es| - 1], id) + if e.FillRecorded? && e.orderId == id then e.fill.quantity else 0.0
  }

  ghost predicate HasFill(es: seq<L.Entry>, id: string) {
    exists i :: 0 <= i < |es| && es[i].event.FillRecorded? && es[i].event.orderId == id
  }

  ghost predicate HasCancel(es: seq<L.Entry>, id: string) {
    exists i :: 0 <= i < |es| && es[i].event == L.OrderCancelled(id)
  }

  predicate IsAnswer(e: L.Event, placementId: string) {
    (e.OrderAck? || e.OrderRejected?) && e.placementId == placementId
  }

  ghost predicate Answered(es: seq<L.Entry>, placementId: string) {
    exists i :: 0 <= i < |es| && IsAnswer(es[i].event, placementId)
  }

  ghost predicate AckAt(es: seq<L.Entry>, i: nat, id: string) {
    i < |es| && es[i].event.OrderAck? && es[i].event.orderId == id
  }

  ghost predicate Acked(es: seq<L.Entry>, id: string) {
    exists i: nat :: AckAt(es, i, id)
  }

  // ----- placements

  /** The placement recorded at `p` is kept under its id, expects the next id then free, and knows whether it was answered. */
  ghost predicate PlacedAt(l: L.State, p: nat, id: string) {
    && p < |l.entries| && l.entries[p].event.OrderPlaced? && l.entries[p].eventId == id
    && id in l.placements && l.placements[id].order == l.entries[p].event.order
    && l.placements[id].expectedOrderId == Numbered(l.idPrefix, PlacedCount(l.entries[..p]))
    && (l.placements[id].terminal.Some? <==> Answered(l.entries, id))
  }

  ghost predicate PlacementsOnRecord(l: L.State) {
    && l.nextOrderId == PlacedCount(l.entries)
    && (forall p: nat :: p < |l.entries| && l.entries[p].event.OrderPlaced? ==> PlacedAt(l, p, l.entries[p].eventId))
    && (forall id :: id in l.placements ==> exists p: nat :: PlacedAt(l, p, id))
    && (forall id :: Answered(l.entries, id) ==> id in l.placements)
  }

  /** Every acknowledgement on record answers a placement, under the id that the placement expects. */
  ghost predicate AcksMatch(l: L.State) {
    forall i: nat, id :: AckAt(l.entries, i, id) ==>
      exists p: nat :: p < i && PlacedAt(l, p, l.entries[i].event.placementId) &&
        id == Numbered(l.idPrefix, PlacedCount(l.entries[..p]))
  }

  /** Only acknowledged orders are filled or cancelled. */
  ghost predicate OnlyAcked(es: seq<L.Entry>) {
    forall id :: HasFill(es, id) || HasCancel(es, id) ==> Acked(es, id)
  }

  // ----- open orders

  /** Not cancelled, and not filled, or resting and filled in part. */
  ghost predicate Alive(es: seq<L.Entry>, id: string, qty: real, state: L.OrderState) {
    !HasCancel(es, id) && (!HasFill(es, id) || (state == L.Resting && FilledOf(es, id) < qty))
  }

  /** The order placed at `p` and acknowledged at `i`, with its fills taken off. */
  ghost predicate OpenBy(es: seq<L.Entry>, p: nat, i: nat, id: string, t: L.Tracked) {
    && p < i && AckAt(es, i, id) && es[p].event.OrderPlaced? && es[p].eventId == es[i].event.placementId
    && t.state == es[i].event.state && t.submittedMs == es[i].timestampMs && t.activeAtMs == es[i].event.activeAtMs
    && var placed := es[p].event.order;
    && t.order == placed.(place := placed.place.(qty := placed.place.qty - FilledOf(es, id)))
    && Alive(es, id, placed.place.qty, t.state)
  }

  ghost predicate IsOpen(es: seq<L.Entry>, id: string, t: L.Tracked) {
    exists p: nat, i: nat :: OpenBy(es, p, i, id, t)
  }

  ghost predicate OrdersOnRecord(l: L.State) {
    forall id, t :: id in l.orders && l.orders[id] == t <==> IsOpen(l.entries, id, t)
  }

  ghost predicate OnRecord(l: L.State) {
    l.fillCount == FillsCounted(l.entries) && PlacementsOnRecord(l) && AcksMatch(l) && OnlyAcked(l.entries) && OrdersOnRecord(l)
  }

  // ----- one more entry

  lemma CountSnoc(es: seq<L.Entry>, e: L.Entry, id: string)
    ensures PlacedCount(es + [e]) == PlacedCount(es) + (if e.event.OrderPlaced? then 1 else 0)
    ensures FillsCounted(es + [e]) == FillsCounted(es) + (if e.event.FillRecorded? then 1 else 0)
    ensures FilledOf(es + [e], id) == FilledOf(es, id) +
      (if e.event.FillRecorded? && e.event.orderId == id then e.event.fill.quantity else 0.0)
  {
    assert (es + [e])[..|es|] == es;
  }

  lemma FlagsSnoc(es: seq<L.Entry>, e: L.Entry, id: string)
    ensures HasFill(es + [e], id) <==> HasFill(es, id) || (e.event.FillRecorded? && e.event.orderId == id)
    ensures HasCancel(es + [e], id) <==> HasCancel(es, id) || e.event == L.OrderCancelled(id)
    ensures Answered(es + [e], id) <==> Answered(es, id) || IsAnswer(e.event, id)
  {
    var longer := es + [e];
    assert longer[|es|] == e && forall i :: 0 <= i < |es| ==> longer[i] == es[i];
  }

  lemma AckSnoc(es: seq<L.Entry>, e: L.Entry, id: string)
    ensures forall i: nat :: AckAt(es + [e], i, id) <==>
      AckAt(es, i, id) || (i == |es| && e.event.OrderAck? && e.event.orderId == id)
    ensures Acked(es + [e], id) <==> Acked(es, id) || (e.event.OrderAck? && e.event.orderId == id)
  {
    var longer := es + [e];
    assert longer[|es|] == e && forall i :: 0 <= i < |es| ==> longer[i] == es[i];
    if i: nat :| AckAt(es, i, id) {
      assert AckAt(longer, i, id);
    }
    if e.event.OrderAck? && e.event.orderId == id {
      assert AckAt(longer, |es|, id);
    }
  }

  lemma {:induction false} CountGrows(es: seq<L.Entry>, p: nat, q: nat)
    requires p < q <= |es| && es[p].event.OrderPlaced?
    ensures PlacedCount(es[..p]) < PlacedCount(es[..q])
    decreases q
  {
    assert es[..q][..q - 1] == es[..q - 1];
    if p < q - 1 {
      CountGrows(es, p, q - 1);
    }
  }

  /** Placements expect different ids. */
  lemma ExpectedDiffer(l: L.State, p: nat, q: nat, a: string, b: string)
    requires PlacedAt(l, p, a) && PlacedAt(l, q, b) && p != q
    ensures Numbered(l.idPrefix, PlacedCount(l.entries[..p])) != Numbered(l.idPrefix, PlacedCount(l.entries[..q]))
  {
    if p < q {
      CountGrows(l.entries, p, q);
    } else {
      CountGrows(l.entries, q, p);
    }
    NumberedInjective(l.idPrefix, PlacedCount(l.entries[..p]), PlacedCount(l.entries[..q]));
  }

  /** What an accepted call does to placements and orders. */
  lemma AppendEffect(l: L.State, call: L.Call)
    requires L.Append(l, call.timestampMs, call.event).1.Ok?
    ensures var m, e := L.Append(l, call.timestampMs, call.event).0, L.NextEntry(l, call.timestampMs, call.event);
      && m.entries == l.entries + [e] && m.idPrefix == l.idPrefix
      && m.nextOrderId == l.nextOrderId + (if call.event.OrderPlaced? then 1 else 0)
      && m.fillCount == l.fillCount + (if call.event.FillRecorded? then 1 else 0)
      && match call.event
         case OrderPlaced(order) =>
           m.orders == l.orders && m.placements == l.placements[
             e.eventId := L.Placement(order, Numbered(l.idPrefix, l.nextOrderId), None)]
         case OrderAck(placementId, id, state, activeAtMs) =>
           && placementId in l.placements && l.placements[placementId].terminal.None?
           && l.placements[placementId].expectedOrderId == id
           && m.placements == l.placements[placementId := l.placements[placementId].(terminal := Some(L.Ack(state)))]
           && m.orders == l.orders[id := L.Tracked(l.placements[placementId].order, state, e.timestampMs, activeAtMs)]
         case OrderRejected(placementId, id) =>
           && placementId in l.placements && l.placements[placementId].terminal.None?
           && m.orders == l.orders
           && m.placements == l.placements[placementId := l.placements[placementId].(terminal := Some(L.Rejected))]
         case OrderCancelled(id) => id in l.orders && m.placements == l.placements && m.orders == l.orders - {id}
         case FillRecorded(id, f) =>
           && id in l.orders && m.placements == l.placements && f.quantity >= 0.0
           && m.orders == L.AfterFill(l.orders, id, f.quantity)
         case _ => m.placements == l.placements && m.orders == l.orders
  {
    hide A.Filled, A.Settled, A.Held, L.AfterFill;
    if call.event.FillRecorded? {
      NegativeIsRefused(l.account, call.event.fill);
    }
  }

  ghost predicate Grows(l: L.State, m: L.State, call: L.Call) {
    && L.WellFormed(l) && L.Append(l, call.timestampMs, call.event).1.Ok?
    && m == L.Append(l, call.timestampMs, call.event).0
  }

  lemma PlacementStays(l: L.State, m: L.State, call: L.Call, p: nat, id: string)
    requires Grows(l, m, call) && PlacedAt(l, p, id)
    ensures PlacedAt(m, p, id) && m.entries[p] == l.entries[p] && m.entries[..p] == l.entries[..p]
  {
    hide L.Append, L.AfterFill, PlacedCount, A.Sound;
    AppendEffect(l, call);
    FlagsSnoc(l.entries, L.NextEntry(l, call.timestampMs, call.event), id);
    assert m.entries[p] == l.entries[p] && m.entries[..p] == l.entries[..p];
    assert L.EventId(l.nextSequence) !in l.placements;
  }

  lemma NewPlacement(l: L.State, m: L.State, call: L.Call)
    requires Grows(l, m, call) && PlacementsOnRecord(l) && call.event.OrderPlaced?
    ensures PlacedAt(m, |l.entries|, L.EventId(l.nextSequence))
  {
    hide L.Append, L.AfterFill, A.Sound;
    AppendEffect(l, call);
    var e := L.NextEntry(l, call.timestampMs, call.event);
    FlagsSnoc(l.entries, e, e.eventId);
    assert m.entries[..|l.entries|] == l.entries;
    assert e.eventId !in l.placements;
    assert m.entries[|l.entries|] == e;
  }

  lemma PlacementsStayOnRecord(l: L.State, m: L.State, call: L.Call)
    requires Grows(l, m, call) && PlacementsOnRecord(l)
    ensures PlacementsOnRecord(m)
  {
    hide L.Append, L.AfterFill, A.Sound, PlacedAt, PlacedCount;
    AppendEffect(l, call);
    var e := L.NextEntry(l, call.timestampMs, call.event);
    CountSnoc(l.entries, e, "");
    forall p: nat | p < |m.entries| && m.entries[p].event.OrderPlaced? ensures PlacedAt(m, p, m.entries[p].eventId) {
      if p < |l.entries| {
        assert m.entries[p] == l.entries[p];
        PlacementStays(l, m, call, p, l.entries[p].eventId);
      } else {
        NewPlacement(l, m, call);
      }
    }
    forall id | id in m.placements ensures exists p: nat :: PlacedAt(m, p, id) {
      if id in l.placements {
        var p: nat :| PlacedAt(l, p, id);
        PlacementStays(l, m, call, p, id);
      } else {
        NewPlacement(l, m, call);
        assert PlacedAt(m, |l.entries|, id);
      }
    }
    forall id | Answered(m.entries, id) ensures id in m.placements {
      FlagsSnoc(l.entries, e, id);
    }
  }

  lemma AcksStayMatched(l: L.State, m: L.State, call: L.Call)
    requires Grows(l, m, call) && PlacementsOnRecord(l) && AcksMatch(l)
    ensures AcksMatch(m)
  {
    hide L.Append, L.AfterFill, A.Sound, PlacedAt, PlacedCount;
    AppendEffect(l, call);
    var es, e := l.entries, L.NextEntry(l, call.timestampMs, call.event);
    forall i: nat, id | AckAt(m.entries, i, id)
      ensures exists p: nat :: (
        p < i && PlacedAt(m, p, m.entries[i].event.placementId) &&
        id == Numbered(m.idPrefix, PlacedCount(m.entries[..p])))
    {
      AckSnoc(es, e, id);
      var placementId := m.entries[i].event.placementId;
      var p: nat := AckedPlacement(l, m, call, i, id);
      PlacementStays(l, m, call, p, placementId);
    }
  }

  lemma AckedPlacement(l: L.State, m: L.State, call: L.Call, i: nat, id: string) returns (p: nat)
    requires Grows(l, m, call) && PlacementsOnRecord(l) && AcksMatch(l) && AckAt(m.entries, i, id)
    ensures p < i && PlacedAt(l, p, m.entries[i].event.placementId)
    ensures id == Numbered(l.idPrefix, PlacedCount(l.entries[..p]))
  {
    hide L.Append, L.AfterFill, A.Sound, PlacedCount;
    AppendEffect(l, call);
    AckSnoc(l.entries, L.NextEntry(l, call.timestampMs, call.event), id);
    if AckAt(l.entries, i, id) {
      assert m.entries[i] == l.entries[i];
      p :| p < i && PlacedAt(l, p, l.entries[i].event.placementId) && id == Numbered(l.idPrefix, PlacedCount(l.entries[..p]));
    } else {
      p :| PlacedAt(l, p, m.entries[i].event.placementId);
    }
  }

  lemma OpenIsAcked(l: L.State, id: string)
    requires OrdersOnRecord(l) && id in l.orders
    ensures Acked(l.entries, id)
  {
    hide Alive;
    assert IsOpen(l.entries, id, l.orders[id]);
    var p: nat, i: nat :| OpenBy(l.entries, p, i, id, l.orders[id]);
    assert AckAt(l.entries, i, id);
  }

  lemma OnlyAckedStays(l: L.State, m: L.State, call: L.Call)
    requires Grows(l, m, call) && OnRecord(l)
    ensures OnlyAcked(m.entries)
  {
    hide L.Append, L.AfterFill, A.Sound, PlacementsOnRecord, AcksMatch, Acked, HasFill, HasCancel, OrdersOnRecord;
    AppendEffect(l, call);
    var e := L.NextEntry(l, call.timestampMs, call.event);
    forall id | HasFill(m.entries, id) || HasCancel(m.entries, id) ensures Acked(m.entries, id) {
      FlagsSnoc(l.entries, e, id);
      AckSnoc(l.entries, e, id);
      if id in l.orders {
        OpenIsAcked(l, id);
      }
    }
  }

  /** An acknowledged id was never acknowledged before. */
  lemma AckedOnce(l: L.State, placementId: string, id: string)
    requires PlacementsOnRecord(l) && AcksMatch(l)
    requires placementId in l.placements && l.placements[placementId].terminal.None?
    requires l.placements[placementId].expectedOrderId == id
    ensures !Acked(l.entries, id)
  {
    hide PlacedCount;
    var q: nat :| PlacedAt(l, q, placementId);
    forall i: nat | AckAt(l.entries, i, id) ensures false {
      var other := l.entries[i].event.placementId;
      var p: nat :| p < i && PlacedAt(l, p, other) && id == Numbered(l.idPrefix, PlacedCount(l.entries[..p]));
      assert IsAnswer(l.entries[i].event, other);
      assert Answered(l.entries, other);
      ExpectedDiffer(l, p, q, other, placementId);
    }
  }

  lemma {:induction false} NoFillNoQuantity(es: seq<L.Entry>, id: string)
    requires !HasFill(es, id)
    ensures FilledOf(es, id) == 0.0
    decreases |es|
  {
    if es != [] {
      var n := |es| - 1;
      assert es == es[..n] + [es[n]];
      FlagsSnoc(es[..n], es[n], id);
      NoFillNoQuantity(es[..n], id);
    }
  }

  /** Entries about other orders do not change what is open under an id. */
  lemma OtherStaysOpen(es: seq<L.Entry>, e: L.Entry, id: string, t: L.Tracked)
    requires e.event.OrderAck? || e.event.OrderCancelled? || e.event.FillRecorded? ==> e.event.orderId != id
    ensures IsOpen(es + [e], id, t) <==> IsOpen(es, id, t)
  {
    hide HasFill, HasCancel, FilledOf;
    var longer := es + [e];
    CountSnoc(es, e, id);
    FlagsSnoc(es, e, id);
    AckSnoc(es, e, id);
    if p: nat, i: nat :| OpenBy(es, p, i, id, t) {
      assert longer[i] == es[i] && longer[p] == es[p];
      assert OpenBy(longer, p, i, id, t);
    }
    if p: nat, i: nat :| OpenBy(longer, p, i, id, t) {
      assert longer[i] == es[i] && longer[p] == es[p];
      assert OpenBy(es, p, i, id, t);
    }
  }

  /** A first acknowledgement opens the placed order under its id, and nothing else. */
  lemma AckIsOpen(es: seq<L.Entry>, e: L.Entry, q: nat, id: string, t: L.Tracked)
    requires e.event.OrderAck? && e.event.orderId == id && L.Numbering(es) && !Acked(es, id)
    requires !HasFill(es, id) && !HasCancel(es, id)
    requires q < |es| && es[q].event.OrderPlaced? && es[q].eventId == e.event.placementId
    ensures t == L.Tracked(es[q].event.order, e.event.state, e.timestampMs, e.event.activeAtMs) <==> IsOpen(es + [e], id, t)
  {
    hide HasFill, HasCancel, FilledOf, Acked;
    var longer := es + [e];
    NoFillNoQuantity(es, id);
    CountSnoc(es, e, id);
    FlagsSnoc(es, e, id);
    AckSnoc(es, e, id);
    var placed := es[q].event.order;
    assert placed.(place := placed.place.(qty := placed.place.qty - 0.0)) == placed;
    assert longer[|es|] == e && longer[q] == es[q];
    if t == L.Tracked(placed, e.event.state, e.timestampMs, e.event.activeAtMs) {
      assert OpenBy(longer, q, |es|, id, t);
    }
    if p: nat, i: nat :| OpenBy(longer, p, i, id, t) {
      NoAckBefore(es, i, id);
      assert i == |es| && longer[p] == es[p];
      NumberedInjective("paper-ledger", p, q);
      assert p == q;
    }
  }

  lemma AckOpens(l: L.State, m: L.State, call: L.Call, t: L.Tracked)
    requires Grows(l, m, call) && OnRecord(l) && call.event.OrderAck?
    ensures var id := call.event.orderId; id in m.orders && (m.orders[id] == t <==> IsOpen(m.entries, id, t))
  {
    hide L.Append, L.AfterFill, A.Sound, HasFill, HasCancel, Acked, PlacedCount, IsOpen, OrdersOnRecord;
    AppendEffect(l, call);
    var id, placementId := call.event.orderId, call.event.placementId;
    AckedOnce(l, placementId, id);
    var q: nat :| PlacedAt(l, q, placementId);
    AckIsOpen(l.entries, L.NextEntry(l, call.timestampMs, call.event), q, id, t);
  }

  lemma NoAckBefore(es: seq<L.Entry>, i: nat, id: string)
    requires !Acked(es, id)
    ensures !AckAt(es, i, id)
  {
  }

  lemma CancelCloses(l: L.State, m: L.State, call: L.Call, t: L.Tracked)
    requires Grows(l, m, call) && call.event.OrderCancelled?
    ensures call.event.orderId !in m.orders && !IsOpen(m.entries, call.event.orderId, t)
  {
    hide L.Append, L.AfterFill, A.Sound, HasFill, HasCancel, FilledOf;
    AppendEffect(l, call);
    FlagsSnoc(l.entries, L.NextEntry(l, call.timestampMs, call.event), call.event.orderId);
  }

  /** The order before a fill of `size` that left `t`. */
  function Before(t: L.Tracked, size: real): L.Tracked {
    L.WithQty(t, t.order.place.qty + size)
  }

  ghost predicate IsFillOf(e: L.Event, id: string, size: real) {
    e.FillRecorded? && e.orderId == id && e.fill.quantity == size && size >= 0.0
  }

  /** What a fill leaves is open. */
  lemma RestIsOpen(es: seq<L.Entry>, e: L.Entry, id: string, size: real, was: L.Tracked, t: L.Tracked)
    requires IsFillOf(e.event, id, size) && IsOpen(es, id, was) && L.Remainder(was, size) == Some(t)
    ensures IsOpen(es + [e], id, t)
  {
    hide HasFill, HasCancel, FilledOf;
    CountSnoc(es, e, id);
    FlagsSnoc(es, e, id);
    AckSnoc(es, e, id);
    var p: nat, i: nat :| OpenBy(es, p, i, id, was);
    assert (es + [e])[p] == es[p] && (es + [e])[i] == es[i];
    assert OpenBy(es + [e], p, i, id, t);
  }

  /** What is open after a fill is what the fill left of something open before. */
  lemma OpenIsRest(es: seq<L.Entry>, e: L.Entry, id: string, size: real, t: L.Tracked)
    requires IsFillOf(e.event, id, size) && IsOpen(es + [e], id, t)
    ensures IsOpen(es, id, Before(t, size)) && L.Remainder(Before(t, size), size) == Some(t)
  {
    hide HasFill, HasCancel, FilledOf;
    CountSnoc(es, e, id);
    FlagsSnoc(es, e, id);
    AckSnoc(es, e, id);
    var p: nat, i: nat :| OpenBy(es + [e], p, i, id, t);
    assert (es + [e])[p] == es[p] && (es + [e])[i] == es[i];
    assert OpenBy(es, p, i, id, Before(t, size));
  }

  lemma FillTakesOff(l: L.State, m: L.State, call: L.Call, t: L.Tracked)
    requires Grows(l, m, call) && OrdersOnRecord(l) && call.event.FillRecorded?
    ensures var id := call.event.orderId; (id in m.orders && m.orders[id] == t) <==> IsOpen(m.entries, id, t)
  {
    hide L.Append, A.Sound, IsOpen, L.Remainder;
    AppendEffect(l, call);
    var es, e, id, size := l.entries, L.NextEntry(l, call.timestampMs, call.event), call.event.orderId, call.event.fill.quantity;
    var was := l.orders[id];
    assert IsOpen(es, id, was);
    if L.Remainder(was, size) == Some(t) {
      RestIsOpen(es, e, id, size, was, t);
    }
    if IsOpen(m.entries, id, t) {
      OpenIsRest(es, e, id, size, t);
      assert was == Before(t, size);
    }
  }

  lemma OthersUntouched(l: L.State, m: L.State, call: L.Call, id: string)
    requires Grows(l, m, call)
    requires call.event.OrderAck? || call.event.OrderCancelled? || call.event.FillRecorded? ==> call.event.orderId != id
    ensures (id in m.orders <==> id in l.orders) && (id in l.orders ==> m.orders[id] == l.orders[id])
    ensures m.entries == l.entries + [L.NextEntry(l, call.timestampMs, call.event)]
  {
    hide L.Append, A.Sound;
    AppendEffect(l, call);
  }

  lemma OrdersStayOnRecord(l: L.State, m: L.State, call: L.Call)
    requires Grows(l, m, call) && OnRecord(l)
    ensures OrdersOnRecord(m)
  {
    hide L.Append, L.AfterFill, A.Sound, IsOpen, PlacementsOnRecord, AcksMatch, OnlyAcked, Grows;
    forall id, t ensures id in m.orders && m.orders[id] == t <==> IsOpen(m.entries, id, t) {
      var about := call.event.OrderAck? || call.event.OrderCancelled? || call.event.FillRecorded?;
      if about && call.event.orderId == id {
        match call.event {
          case OrderAck(_, _, _, _) => AckOpens(l, m, call, t);
          case OrderCancelled(_) => CancelCloses(l, m, call, t);
          case FillRecorded(_, _) => FillTakesOff(l, m, call, t);
        }
      } else {
        OthersUntouched(l, m, call, id);
        OtherStaysOpen(l.entries, L.NextEntry(l, call.timestampMs, call.event), id, t);
      }
    }
  }

  lemma NewIsOnRecord(initialCash: real, idPrefix: string)
    ensures OnRecord(L.New(initialCash, idPrefix))
  {
    var l := L.New(initialCash, idPrefix);
    assert l.entries[..0] == [];
  }

  lemma RefusedStaysOnRecord(l: L.State, fees: real)
    requires OnRecord(l)
    ensures OnRecord(l.(account := l.account.(fees := fees)))
  {
    hide PlacedCount, OpenBy, IsOpen;
    var m := l.(account := l.account.(fees := fees));
    assert forall p: nat, id :: PlacedAt(l, p, id) ==> PlacedAt(m, p, id);
  }

  /**
   * In every run, accepted and refused calls alike: each placement is open, answered once, under the id that its place
   * in the log gives it; and exactly those orders are open that were acknowledged, never cancelled, and not filled
   * (or, resting, not filled completely), each with its placed quantity less all its fills. Fills and placements are
   * counted as they are recorded.
   */
  lemma {:induction false} OrdersAreOnRecord(initialCash: real, idPrefix: string, calls: seq<L.Call>)
    requires forall i :: 0 <= i < |calls| ==> L.IsCall(calls[i])
    ensures OnRecord(L.Live(initialCash, idPrefix, calls))
    decreases |calls|
  {
    hide L.Append, L.New, L.WellFormed, OnRecord, L.LeakedFee;
    if calls == [] {
      NewIsOnRecord(initialCash, idPrefix);
    } else {
      var n := |calls| - 1;
      OrdersAreOnRecord(initialCash, idPrefix, calls[..n]);
      L.ReplayMirrorsLive(initialCash, idPrefix, calls[..n]);
      StepStaysOnRecord(L.Live(initialCash, idPrefix, calls[..n]), calls[n]);
    }
  }

  lemma StepStaysOnRecord(l: L.State, call: L.Call)
    requires L.WellFormed(l) && L.IsCall(call) && OnRecord(l)
    ensures OnRecord(L.Append(l, call.timestampMs, call.event).0)
  {
    hide L.Append, L.WellFormed, PlacementsOnRecord, AcksMatch, OnlyAcked, OrdersOnRecord, L.LeakedFee;
    var (m, v) := L.Append(l, call.timestampMs, call.event);
    if v.Ok? {
      AppendEffect(l, call);
      CountSnoc(l.entries, L.NextEntry(l, call.timestampMs, call.event), "");
      PlacementsStayOnRecord(l, m, call);
      AcksStayMatched(l, m, call);
      OnlyAckedStays(l, m, call);
      OrdersStayOnRecord(l, m, call);
    } else {
      L.RefusedCall(l, call);
      RefusedStaysOnRecord(l, m.account.fees);
    }
  }
}
