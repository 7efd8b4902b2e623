/** What happens to one order over any sequence of simulator calls. */
module OrderLifecycle {
  import opened Trading
  import opened Numerals
  import opened BookWalk
  import opened Simulator

  datatype Call =
    | Update(token: Token, book: OrderBook, visit: seq<string>)
    | Submit(order: PlaceOrder, strategy: Option<string>, now: Millis)
    | Cancel(id: string)
    | CancelAll
    | Drain

  /** The engine, every order it ever minted an id for, and every fill it ever queued. */
  datatype History = History(engine: Engine, minted: map<string, LiveOrder>, log: seq<Fill>)

  function After(c: Config, e: Engine, call: Call): Engine {
    match call
    case Update(token, book, visit) => BookUpdated(c, e, token, book, visit)
    case Submit(order, strategy, now) => Submitted(c, e, order, strategy, now).0
    case Cancel(id) => Cancelled(e, id).0
    case CancelAll => AllCancelled(e)
    case Drain => e.(pending := [])
  }

  function Step(c: Config, h: History, call: Call): History {
    var e := After(c, h.engine, call);
    var queued := if |h.engine.pending| <= |e.pending| then e.pending[|h.engine.pending|..] else [];
    History(
      e,
      if e.nextId == h.engine.nextId || !call.Submit? then h.minted
      else
        var o := NewOrder(c, h.engine, call.order, call.strategy, call.now);
        h.minted[o.orderId := o],
      h.log + queued)
  }

  /** A call a caller can make: an update visits the resting map in some order. */
  ghost predicate Allowed(h: History, call: Call) {
    call.Update? ==> IsVisitOf(call.visit, h.engine, call.token, call.book)
  }

  // ----- fills of one order, added up

  function FilledTotal(fills: seq<Fill>, id: string): real {
    if fills == [] then 0.0
    else
      var last := fills[|fills| - 1];
      FilledTotal(fills[..|fills| - 1], id) + if last.orderId == id then last.size else 0.0
  }

  lemma {:induction false} FilledTotalAdds(left: seq<Fill>, right: seq<Fill>, id: string)
    ensures FilledTotal(left + right, id) == FilledTotal(left, id) + FilledTotal(right, id)
    decreases |right|
  {
    if right == [] {
      assert left + right == left;
    } else {
      var n := |right| - 1;
      assert (left + right)[..|left| + n] == left + right[..n];
      FilledTotalAdds(left, right[..n], id);
    }
  }

  lemma FilledByOne(f: Option<Fill>, id: string)
    ensures FilledTotal(OneOrNone(f), id) == if f.Some? && f.value.orderId == id then f.value.size else 0.0
  {
    if f.Some? {
      assert OneOrNone(f)[..0] == [];
    }
  }

  lemma TakerFacts(c: Config, book: OrderBook, o: LiveOrder, fillMs: Millis)
    ensures match TakerFill(c, book, o, fillMs)
      case None => true
      case Some(f) =>
        f.orderId == o.orderId && 0.0 < f.size <= o.order.qty && NoWorse(o.order.side, f.price, o.order.price)
  {
    var levels := Against(book, o.order.side);
    NeverOverfills(levels, o.order.qty, o.order.price, o.order.side);
  }

  /** One sweep fills an order at most once, by its own maker fill. */
  lemma {:induction false} SweepTotal(
    c: Config, book: OrderBook, resting: map<string, LiveOrder>, visit: seq<string>, id: string)
    requires NoDuplicates(visit)
    requires forall x :: x in resting ==> resting[x].orderId == x
    ensures FilledTotal(SweepFills(c, book, resting, visit), id)
         == if id in visit then FilledTotal(FillAt(c, book, resting, id), id) else 0.0
    decreases |visit|
  {
    if visit != [] {
      var n := |visit| - 1;
      var last := visit[n];
      SweepTotal(c, book, resting, visit[..n], id);
      FilledTotalAdds(SweepFills(c, book, resting, visit[..n]), FillAt(c, book, resting, last), id);
      if last in resting {
        FilledByOne(MakerFill(c, book, resting[last]), id);
      }
      assert id in visit <==> id in visit[..n] || id == last;
    }
  }

  ghost predicate DistinctIds(os: seq<LiveOrder>) {
    forall i, j :: 0 <= i < j < |os| ==> os[i].orderId != os[j].orderId
  }

  /** Activation fills a delayed order at most once, and never one that has not matured. */
  lemma {:induction false} ActivationTotal(
    c: Config, token: Token, book: OrderBook, delayed: seq<LiveOrder>, id: string)
    requires DistinctIds(delayed)
    ensures var total := FilledTotal(ActivationFills(c, token, book, delayed), id);
      ((forall o :: o in delayed && o.orderId == id ==> !Matured(o, token, book.timestampMs)) ==> total == 0.0) &&
      (forall o :: o in delayed && o.orderId == id ==> total <= MaxReal(o.order.qty, 0.0))
    decreases |delayed|
  {
    if delayed != [] {
      var n := |delayed| - 1;
      var front, last := delayed[..n], delayed[n];
      ActivationTotal(c, token, book, front, id);
      var fill := TakerFill(c, book, last, book.timestampMs);
      var extra := if Matured(last, token, book.timestampMs) then OneOrNone(fill) else [];
      FilledTotalAdds(ActivationFills(c, token, book, front), extra, id);
      FilledByOne(fill, id);
      TakerFacts(c, book, last, book.timestampMs);
      assert forall o :: o in delayed <==> o in front || o == last;
      assert forall o :: o in front ==> o.orderId != last.orderId;
    }
  }

  lemma {:induction false} UnexpiredStayDistinct(delayed: seq<LiveOrder>, token: Token, now: Millis)
    requires DistinctIds(delayed)
    ensures DistinctIds(UnexpiredDelayed(delayed, token, now))
    decreases |delayed|
  {
    if delayed != [] {
      var n := |delayed| - 1;
      UnexpiredStayDistinct(delayed[..n], token, now);
      var front := UnexpiredDelayed(delayed[..n], token, now);
      forall i | 0 <= i < |front| ensures front[i].orderId != delayed[n].orderId {
        assert front[i] in delayed[..n];
      }
    }
  }

  lemma {:induction false} DelayedStayDistinct(delayed: seq<LiveOrder>, token: Token, now: Millis)
    requires DistinctIds(delayed)
    ensures DistinctIds(StillDelayed(delayed, token, now))
    decreases |delayed|
  {
    if delayed != [] {
      var n := |delayed| - 1;
      DelayedStayDistinct(delayed[..n], token, now);
      var front := StillDelayed(delayed[..n], token, now);
      forall i | 0 <= i < |front| ensures front[i].orderId != delayed[n].orderId {
        assert front[i] in delayed[..n];
      }
    }
  }

  // ----- the invariant

  /** A fill its order allowed: the order's own token and side, its limit, after activation, before expiry. */
  ghost predicate Legitimate(minted: map<string, LiveOrder>, f: Fill) {
    f.orderId in minted &&
    var o := minted[f.orderId];
    f.market == o.order.market && f.outcome == o.order.outcome && f.side == o.order.side &&
    NoWorse(o.order.side, f.price, o.order.price) &&
    o.activeAtMs <= f.timestampMs && !Expired(o.order, f.timestampMs)
  }

  ghost predicate Originals(c: Config, h: History) {
    (forall id :: id in h.minted ==>
      h.minted[id].orderId == id && !Expired(h.minted[id].order, h.minted[id].submittedMs)) &&
    (forall k: nat :: k >= h.engine.nextId ==> Numbered(c.idPrefix, k) !in h.minted)
  }

  /** A resting order is its original with exactly its fills taken off. */
  ghost predicate RestingAccounted(h: History) {
    forall id :: id in h.engine.resting ==>
      id in h.minted && h.engine.resting[id] == Lessened(h.minted[id], FilledTotal(h.log, id))
  }

  /** A delayed order is untouched and in no other place. */
  ghost predicate DelayedUntouched(h: History) {
    DistinctIds(h.engine.delayed) &&
    forall o :: o in h.engine.delayed ==>
      o.orderId in h.minted && h.minted[o.orderId] == o && o.orderId !in h.engine.resting &&
      FilledTotal(h.log, o.orderId) == 0.0
  }

  /** No order is filled beyond the quantity it was submitted with. */
  ghost predicate NeverOverfilled(h: History) {
    forall id :: id in h.minted ==> FilledTotal(h.log, id) <= MaxReal(h.minted[id].order.qty, 0.0)
  }

  ghost predicate AllLegitimate(h: History) {
    forall f :: f in h.log ==> Legitimate(h.minted, f)
  }

  ghost predicate Lifecycle(c: Config, h: History) {
    Originals(c, h) && RestingAccounted(h) && DelayedUntouched(h) && NeverOverfilled(h) && AllLegitimate(h)
  }

  // ----- updates

  lemma {:induction false} SweepLegitimate(
    c: Config, token: Token, book: OrderBook, h: History, resting: map<string, LiveOrder>, visit: seq<string>)
    requires Lifecycle(c, h)
    requires forall id :: id in resting ==>
      id in h.engine.resting && resting[id] == h.engine.resting[id] && !Dropped(resting[id], token, book.timestampMs)
    requires forall id :: id in visit ==> id in resting && Crossed(resting[id], token, book)
    ensures forall f :: f in SweepFills(c, book, resting, visit) ==> Legitimate(h.minted, f)
    decreases |visit|
  {
    if visit != [] {
      var n := |visit| - 1;
      SweepLegitimate(c, token, book, h, resting, visit[..n]);
      assert visit[n] in visit;
    }
  }

  lemma {:induction false} ActivationLegitimate(
    c: Config, token: Token, book: OrderBook, h: History, delayed: seq<LiveOrder>)
    requires Lifecycle(c, h)
    requires forall o :: o in delayed ==> o in h.engine.delayed && !Dropped(o, token, book.timestampMs)
    ensures forall f :: f in ActivationFills(c, token, book, delayed) ==> Legitimate(h.minted, f)
    decreases |delayed|
  {
    if delayed != [] {
      var n := |delayed| - 1;
      ActivationLegitimate(c, token, book, h, delayed[..n]);
      assert delayed[n] in delayed;
      TakerFacts(c, book, delayed[n], book.timestampMs);
    }
  }

  /** How much one update adds to the fills of one order. */
  ghost function UpdateTotal(c: Config, e: Engine, token: Token, book: OrderBook, visit: seq<string>, id: string): real {
    FilledTotal(ActivationFills(c, token, book, UnexpiredDelayed(e.delayed, token, book.timestampMs)), id) +
    FilledTotal(SweepFills(c, book, UnexpiredResting(e.resting, token, book.timestampMs), visit), id)
  }

  lemma UpdateLog(c: Config, h: History, call: Call, id: string)
    requires call.Update?
    ensures var h' := Step(c, h, call);
      h'.minted == h.minted &&
      h'.log == h.log + (ActivationFills(c, call.token, call.book, UnexpiredDelayed(h.engine.delayed, call.token, call.book.timestampMs))
              + SweepFills(c, call.book, UnexpiredResting(h.engine.resting, call.token, call.book.timestampMs), call.visit)) &&
      FilledTotal(h'.log, id) == FilledTotal(h.log, id) + UpdateTotal(c, h.engine, call.token, call.book, call.visit, id)
  {
    var token, book := call.token, call.book;
    var a := ActivationFills(c, token, book, UnexpiredDelayed(h.engine.delayed, token, book.timestampMs));
    var s := SweepFills(c, book, UnexpiredResting(h.engine.resting, token, book.timestampMs), call.visit);
    var pending := Step(c, h, call).engine.pending;
    assert pending == h.engine.pending + a + s;
    assert pending[|h.engine.pending|..] == a + s;
    FilledTotalAdds(h.log, a + s, id);
    FilledTotalAdds(a, s, id);
  }

  /** Per order: what a sweep adds to its fills is what it takes off the resting order. */
  lemma SweepPerOrder(c: Config, h: History, token: Token, book: OrderBook, visit: seq<string>, id: string)
    requires Lifecycle(c, h) && IsVisitOf(visit, h.engine, token, book)
    ensures var resting := UnexpiredResting(h.engine.resting, token, book.timestampMs);
      var added := FilledTotal(SweepFills(c, book, resting, visit), id);
      (id in resting ==>
        AfterSweep(c, token, book, resting[id]) in {None, Some(Lessened(resting[id], added))} &&
        added <= MaxReal(resting[id].order.qty, 0.0)) &&
      (id !in resting ==> added == 0.0)
  {
    hide SweepFills, FilledTotal, Touches, MakerQuantity;
    var resting := UnexpiredResting(h.engine.resting, token, book.timestampMs);
    assert forall x :: x in resting ==> resting[x].orderId == x;
    SweepTotal(c, book, resting, visit, id);
    if id in resting {
      MakerQuantityBound(c, book, resting[id].order);
      FilledByOne(MakerFill(c, book, resting[id]), id);
    }
  }

  lemma MakerQuantityBound(c: Config, book: OrderBook, order: PlaceOrder)
    ensures MakerQuantity(c, book, order) <= order.qty
  {
  }

  /** Per order: what an update adds is what it takes off the resting order, or one activation. */
  lemma UpdatePerOrder(c: Config, h: History, token: Token, book: OrderBook, visit: seq<string>, id: string)
    requires Lifecycle(c, h) && IsVisitOf(visit, h.engine, token, book)
    ensures var added := UpdateTotal(c, h.engine, token, book, visit, id);
      var e' := BookUpdated(c, h.engine, token, book, visit);
      (id in e'.resting ==> id in h.engine.resting && e'.resting[id] == Lessened(h.engine.resting[id], added)) &&
      (id in h.engine.resting ==> added <= MaxReal(h.engine.resting[id].order.qty, 0.0)) &&
      (id !in h.engine.resting && (forall o :: o in h.engine.delayed ==> o.orderId != id) ==> added == 0.0) &&
      (forall o :: o in h.engine.delayed && o.orderId == id ==>
        added <= MaxReal(o.order.qty, 0.0) && (o in e'.delayed ==> added == 0.0))
  {
    hide SweepFills, ActivationFills, FilledTotal, AfterSweep, Matured, Dropped, IsVisitOf;
    var now := book.timestampMs;
    UnexpiredStayDistinct(h.engine.delayed, token, now);
    ActivationTotal(c, token, book, UnexpiredDelayed(h.engine.delayed, token, now), id);
    SweepPerOrder(c, h, token, book, visit, id);
  }

  lemma UpdateKeeps(c: Config, h: History, call: Call)
    requires Lifecycle(c, h) && call.Update? && Allowed(h, call)
    ensures Lifecycle(c, Step(c, h, call))
  {
    hide BookUpdated, FilledTotal, SweepFills, ActivationFills, Legitimate, IsVisitOf;
    var token, book, visit := call.token, call.book, call.visit;
    var h' := Step(c, h, call);
    DelayedAfterUpdate(c, h, call);
    forall id
      ensures h'.minted == h.minted
      ensures id in h'.engine.resting ==>
        id in h'.minted && h'.engine.resting[id] == Lessened(h'.minted[id], FilledTotal(h'.log, id))
      ensures id in h'.minted ==> FilledTotal(h'.log, id) <= MaxReal(h'.minted[id].order.qty, 0.0)
      ensures forall o :: o in h'.engine.delayed && o.orderId == id ==> FilledTotal(h'.log, id) == 0.0
    {
      UpdateLog(c, h, call, id);
      UpdatePerOrder(c, h, token, book, visit, id);
    }
    UpdateLog(c, h, call, "");
    VisitIsCrossed(h, call);
    assert h'.engine.nextId == h.engine.nextId by { UpdateMintsNothing(c, h, call); }
    ActivationLegitimate(c, token, book, h, UnexpiredDelayed(h.engine.delayed, token, book.timestampMs));
    SweepLegitimate(c, token, book, h, UnexpiredResting(h.engine.resting, token, book.timestampMs), visit);
  }

  lemma UpdateMintsNothing(c: Config, h: History, call: Call)
    requires call.Update?
    ensures Step(c, h, call).engine.nextId == h.engine.nextId
  {
  }

  lemma VisitIsCrossed(h: History, call: Call)
    requires call.Update? && Allowed(h, call)
    ensures var resting := UnexpiredResting(h.engine.resting, call.token, call.book.timestampMs);
      forall id :: id in call.visit ==> id in resting && Crossed(resting[id], call.token, call.book)
  {
  }

  lemma DelayedAfterUpdate(c: Config, h: History, call: Call)
    requires Lifecycle(c, h) && call.Update? && Allowed(h, call)
    ensures var e' := Step(c, h, call).engine;
      DistinctIds(e'.delayed) && forall o :: o in e'.delayed ==> o in h.engine.delayed && o.orderId !in e'.resting
  {
    var now := call.book.timestampMs;
    UnexpiredStayDistinct(h.engine.delayed, call.token, now);
    DelayedStayDistinct(UnexpiredDelayed(h.engine.delayed, call.token, now), call.token, now);
  }

  // ----- submissions and cancellations

  lemma MintKeepsFresh(c: Config, h: History, o: LiveOrder, n: nat)
    requires Originals(c, h) && o.orderId == Numbered(c.idPrefix, n) && n == h.engine.nextId
    ensures o.orderId !in h.minted
    ensures forall k: nat :: k >= n + 1 ==> Numbered(c.idPrefix, k) !in h.minted[o.orderId := o]
  {
    forall k: nat | k >= n + 1 ensures Numbered(c.idPrefix, k) != o.orderId {
      NumberedInjective(c.idPrefix, k, n);
    }
  }

  lemma {:induction false} NoFillsYet(h: History, fills: seq<Fill>, id: string)
    requires (forall f :: f in fills ==> Legitimate(h.minted, f)) && id !in h.minted
    ensures FilledTotal(fills, id) == 0.0
    decreases |fills|
  {
    if fills != [] {
      var n := |fills| - 1;
      assert fills[n] in fills;
      NoFillsYet(h, fills[..n], id);
    }
  }

  /** What a submission that minted an id did to the history. */
  ghost predicate MintedBy(c: Config, h: History, call: Call, o: LiveOrder) {
    call.Submit? && o == NewOrder(c, h.engine, call.order, call.strategy, call.now) &&
    !Expired(call.order, call.now) && o.orderId !in h.minted && FilledTotal(h.log, o.orderId) == 0.0 &&
    var h' := Step(c, h, call);
    h'.engine.nextId == h.engine.nextId + 1 && h'.minted == h.minted[o.orderId := o] &&
    (forall k: nat :: k >= h.engine.nextId + 1 ==> Numbered(c.idPrefix, k) !in h'.minted) &&
    (forall id :: id != o.orderId ==> FilledTotal(h'.log, id) == FilledTotal(h.log, id)) &&
    FilledTotal(h'.log, o.orderId) <= MaxReal(o.order.qty, 0.0) &&
    (call.order.postOnly || c.latencyMs > 0 ==> FilledTotal(h'.log, o.orderId) == 0.0) &&
    (forall f :: f in h'.log ==> f in h.log || Legitimate(h'.minted, f))
  }

  /** The fill a submission queues at once: only an undelayed taker on a known book can have one. */
  function ImmediateFill(c: Config, e: Engine, call: Call): Option<Fill>
    requires call.Submit?
  {
    var token := TokenOf(call.order);
    if token !in e.books || call.order.postOnly || c.latencyMs > 0 then None
    else TakerFill(c, e.books[token], NewOrder(c, e, call.order, call.strategy, call.now), call.now)
  }

  lemma SubmitEffect(c: Config, h: History, call: Call)
    requires call.Submit? && !Expired(call.order, call.now) && !c.violatesLimits(call.order)
    ensures var h' := Step(c, h, call);
      var o := NewOrder(c, h.engine, call.order, call.strategy, call.now);
      h'.engine.nextId == h.engine.nextId + 1 && h'.minted == h.minted[o.orderId := o] &&
      h'.log == h.log + OneOrNone(ImmediateFill(c, h.engine, call))
  {
    hide TakerFill, Touches;
    var e' := After(c, h.engine, call);
    assert e'.pending == h.engine.pending + OneOrNone(ImmediateFill(c, h.engine, call));
  }

  lemma MintedByHolds(c: Config, h: History, call: Call)
    requires Lifecycle(c, h) && call.Submit? && !Expired(call.order, call.now) && !c.violatesLimits(call.order)
    ensures MintedBy(c, h, call, NewOrder(c, h.engine, call.order, call.strategy, call.now))
  {
    hide FilledTotal, Step, TakerFill;
    var h' := Step(c, h, call);
    var o := NewOrder(c, h.engine, call.order, call.strategy, call.now);
    SubmitEffect(c, h, call);
    MintKeepsFresh(c, h, o, h.engine.nextId);
    NoFillsYet(h, h.log, o.orderId);
    var fill := ImmediateFill(c, h.engine, call);
    if fill.Some? {
      TakerFacts(c, h.engine.books[TokenOf(call.order)], o, call.now);
      ImmediateFillLegitimate(c, h, call, o);
    }
    forall id ensures FilledTotal(h'.log, id)
      == FilledTotal(h.log, id) + if fill.Some? && fill.value.orderId == id then fill.value.size else 0.0
    {
      FilledTotalAdds(h.log, OneOrNone(fill), id);
      FilledByOne(fill, id);
    }
  }

  lemma ImmediateFillLegitimate(c: Config, h: History, call: Call, o: LiveOrder)
    requires call.Submit? && !Expired(call.order, call.now) && ImmediateFill(c, h.engine, call).Some?
    requires o == NewOrder(c, h.engine, call.order, call.strategy, call.now)
    ensures ImmediateFill(c, h.engine, call).value.orderId == o.orderId
    ensures Legitimate(h.minted[o.orderId := o], ImmediateFill(c, h.engine, call).value)
  {
    hide Walked;
  }

  lemma MintedResting(c: Config, h: History, call: Call, o: LiveOrder)
    requires Lifecycle(c, h) && MintedBy(c, h, call, o)
    ensures RestingAccounted(Step(c, h, call))
  {
    hide FilledTotal, Legitimate, TakerFill;
    var e' := Step(c, h, call).engine;
    assert e'.resting == h.engine.resting || (call.order.postOnly && e'.resting == h.engine.resting[o.orderId := o]);
    assert Lessened(o, 0.0) == o;
  }

  lemma MintedDelayed(c: Config, h: History, call: Call, o: LiveOrder)
    requires Lifecycle(c, h) && MintedBy(c, h, call, o)
    ensures DelayedUntouched(Step(c, h, call))
  {
    hide FilledTotal, Legitimate, TakerFill, Touches;
    var e' := Step(c, h, call).engine;
    assert forall i :: 0 <= i < |h.engine.delayed| ==> h.engine.delayed[i] in h.engine.delayed;
    assert forall d :: d in h.engine.delayed ==> d.orderId != o.orderId;
    if e'.delayed == h.engine.delayed {
      assert e'.resting == h.engine.resting || e'.resting == h.engine.resting[o.orderId := o];
    } else {
      assert e'.delayed == h.engine.delayed + [o] && e'.resting == h.engine.resting && c.latencyMs > 0;
    }
  }

  lemma SubmitClauses(c: Config, h: History, call: Call, o: LiveOrder)
    requires Lifecycle(c, h) && MintedBy(c, h, call, o)
    ensures Lifecycle(c, Step(c, h, call))
  {
    MintedResting(c, h, call, o);
    MintedDelayed(c, h, call, o);
    assert forall f :: Legitimate(h.minted, f) ==> Legitimate(h.minted[o.orderId := o], f);
  }

  lemma SubmitKeeps(c: Config, h: History, call: Call)
    requires Lifecycle(c, h) && call.Submit?
    ensures Lifecycle(c, Step(c, h, call))
  {
    if Expired(call.order, call.now) || c.violatesLimits(call.order) {
      assert Step(c, h, call).log == h.log;
      assert Step(c, h, call) == h;
    } else {
      MintedByHolds(c, h, call);
      SubmitClauses(c, h, call, NewOrder(c, h.engine, call.order, call.strategy, call.now));
    }
  }

  /** Orders that leave without a fill leave the rest of the history alone. */
  lemma RemovalKeeps(c: Config, h: History, e: Engine)
    requires Lifecycle(c, h) && e.nextId == h.engine.nextId && DistinctIds(e.delayed)
    requires forall id :: id in e.resting ==> id in h.engine.resting && e.resting[id] == h.engine.resting[id]
    requires forall o :: o in e.delayed ==> o in h.engine.delayed
    ensures Lifecycle(c, h.(engine := e))
  {
    hide FilledTotal, Legitimate, Expired;
  }

  lemma CancelKeeps(c: Config, h: History, call: Call)
    requires Lifecycle(c, h) && (call.Cancel? || call.CancelAll? || call.Drain?)
    ensures Lifecycle(c, Step(c, h, call))
  {
    hide RestingAccounted, NeverOverfilled, AllLegitimate, Originals;
    var h' := Step(c, h, call);
    assert h'.log == h.log && h'.minted == h.minted;
    assert h' == h.(engine := h'.engine);
    RemovalKeeps(c, h, h'.engine);
  }

  lemma StepKeepsLifecycle(c: Config, h: History, call: Call)
    requires Lifecycle(c, h) && Allowed(h, call)
    ensures Lifecycle(c, Step(c, h, call))
  {
    match call {
      case Update(_, _, _) => UpdateKeeps(c, h, call);
      case Submit(_, _, _) => SubmitKeeps(c, h, call);
      case _ => CancelKeeps(c, h, call);
    }
  }

  /** A run: any calls, any book times, any visiting orders. */
  ghost predicate IsRun(c: Config, states: seq<History>, calls: seq<Call>) {
    |states| == |calls| + 1 &&
    (exists start: nat :: states[0] == History(EMPTY_ENGINE.(nextId := start), map[], [])) &&
    forall i :: 0 <= i < |calls| ==> Allowed(states[i], calls[i]) && states[i + 1] == Step(c, states[i], calls[i])
  }

  /**
   * In every state of every run: a resting order's fills and remainder add up to what was submitted,
   * no order is overfilled, and no fill is beyond the limit, before activation or at or after expiry.
   */
  lemma {:induction false} EveryRunKeepsLifecycle(c: Config, states: seq<History>, calls: seq<Call>, n: nat)
    requires IsRun(c, states, calls) && n <= |calls|
    ensures Lifecycle(c, states[n])
    ensures forall id :: id in states[n].engine.resting ==>
      FilledTotal(states[n].log, id) + states[n].engine.resting[id].order.qty == states[n].minted[id].order.qty
    decreases n
  {
    if n > 0 {
      EveryRunKeepsLifecycle(c, states, calls, n - 1);
      StepKeepsLifecycle(c, states[n - 1], calls[n - 1]);
    }
  }
}
