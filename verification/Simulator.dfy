/** The fill simulator: books, resting makers, delayed takers and the fills they produce. */
module Simulator {
  import opened Trading
  import opened Numerals
  import opened BookWalk

  /**
   * Simulation inputs. The fee model and the venue limits are arbitrary functions, so every result
   * below holds for any rounding of fees, any overflow, and any limit rule.
   */
  datatype Config = Config(
    idPrefix: string,
    latencyMs: Millis,
    queueAheadBps: nat,
    slippageBps: nat,
    impactBps: nat,
    fee: (real, real, Liquidity) -> Option<real>,
    violatesLimits: PlaceOrder -> bool)

  datatype LiveOrder = LiveOrder(
    orderId: string,
    order: PlaceOrder,
    submittedMs: Millis,
    activeAtMs: Millis,
    strategy: Option<string>)

  type Token = (string, Outcome)

  function TokenOf(order: PlaceOrder): Token {
    (order.market, order.outcome)
  }

  datatype Engine = Engine(
    books: map<Token, OrderBook>,
    resting: map<string, LiveOrder>,
    delayed: seq<LiveOrder>,
    pending: seq<Fill>,
    nextId: nat)

  const EMPTY_ENGINE := Engine(map[], map[], [], [], 0)

  // ----- fills of single orders

  /** The side of the book an order trades against. */
  function Against(book: OrderBook, side: Side): seq<Level> {
    match side
    case Buy => book.asks
    case Sell => book.bids
  }

  /** The order's limit is at or through the best opposite price. */
  predicate Touches(book: OrderBook, order: PlaceOrder) {
    var levels := Against(book, order.side);
    levels != [] && NoWorse(order.side, levels[0].price, order.price)
  }

  /** Slippage and impact move the price against the taker, but never past the limit. */
  function AdversePrice(c: Config, side: Side, average: real, limit: real): (price: real)
    ensures NoWorse(side, price, limit)
  {
    var adverse := (c.slippageBps + c.impactBps) as real / 10000.0;
    match side
    case Buy => MinReal(average * (1.0 + adverse), limit)
    case Sell => MaxReal(average * (1.0 - adverse), limit)
  }

  function TakerFill(c: Config, book: OrderBook, o: LiveOrder, fillMs: Millis): Option<Fill> {
    var order := o.order;
    match Walked(Against(book, order.side), order.qty, order.price, order.side)
    case None => None
    case Some((average, qty)) =>
      var price := AdversePrice(c, order.side, average, order.price);
      match c.fee(qty, price, Taker)
      case None => None
      case Some(fee) =>
        Some(Fill(o.orderId, order.market, order.outcome, price, qty, order.side, fee, Taker,
                  Later(fillMs, o.submittedMs)))
  }

  /** Liquidity left for a maker at the touch after the queue ahead of it. */
  function MakerQuantity(c: Config, book: OrderBook, order: PlaceOrder): (qty: real)
    ensures qty <= order.qty && (order.qty >= 0.0 ==> qty >= 0.0)
  {
    var levels := Against(book, order.side);
    var top := if levels == [] then 0.0 else levels[0].qty;
    MinReal(order.qty, MaxReal(top * (1.0 - c.queueAheadBps as real / 10000.0), 0.0))
  }

  function MakerFill(c: Config, book: OrderBook, o: LiveOrder): Option<Fill> {
    var order := o.order;
    var qty := MakerQuantity(c, book, order);
    if qty == 0.0 then None
    else
      match c.fee(qty, order.price, Maker)
      case None => None
      case Some(fee) =>
        Some(Fill(o.orderId, order.market, order.outcome, order.price, qty, order.side, fee, Maker,
                  Later(book.timestampMs, o.submittedMs)))
  }

  predicate Crossed(o: LiveOrder, token: Token, book: OrderBook) {
    TokenOf(o.order) == token && o.activeAtMs <= book.timestampMs && Touches(book, o.order)
  }

  function Lessened(o: LiveOrder, size: real): LiveOrder {
    o.(order := o.order.(qty := o.order.qty - size))
  }

  /** What one book update leaves of a resting order: nothing once it is filled. */
  function AfterSweep(c: Config, token: Token, book: OrderBook, o: LiveOrder): Option<LiveOrder> {
    if !Crossed(o, token, book) then Some(o)
    else
      match MakerFill(c, book, o)
      case None => Some(o)
      case Some(f) => if o.order.qty - f.size == 0.0 then None else Some(Lessened(o, f.size))
  }

  // ----- book updates

  predicate Dropped(o: LiveOrder, token: Token, now: Millis) {
    TokenOf(o.order) == token && Expired(o.order, now)
  }

  function UnexpiredResting(resting: map<string, LiveOrder>, token: Token, now: Millis): map<string, LiveOrder> {
    map id | id in resting && !Dropped(resting[id], token, now) :: resting[id]
  }

  ghost predicate AreUnexpired(r: seq<LiveOrder>, delayed: seq<LiveOrder>, token: Token, now: Millis) {
    forall o :: o in r <==> o in delayed && !Dropped(o, token, now)
  }

  function UnexpiredDelayed(delayed: seq<LiveOrder>, token: Token, now: Millis): (r: seq<LiveOrder>)
    ensures AreUnexpired(r, delayed, token, now)
  {
    if delayed == [] then []
    else
      var last := delayed[|delayed| - 1];
      UnexpiredDelayed(delayed[..|delayed| - 1], token, now) + if Dropped(last, token, now) then [] else [last]
  }

  predicate Matured(o: LiveOrder, token: Token, now: Millis) {
    TokenOf(o.order) == token && o.activeAtMs <= now
  }

  ghost predicate AreImmature(r: seq<LiveOrder>, delayed: seq<LiveOrder>, token: Token, now: Millis) {
    forall o :: o in r <==> o in delayed && !Matured(o, token, now)
  }

  function StillDelayed(delayed: seq<LiveOrder>, token: Token, now: Millis): (r: seq<LiveOrder>)
    ensures AreImmature(r, delayed, token, now)
  {
    if delayed == [] then []
    else
      var last := delayed[|delayed| - 1];
      StillDelayed(delayed[..|delayed| - 1], token, now) + if Matured(last, token, now) then [] else [last]
  }

  function OneOrNone(f: Option<Fill>): seq<Fill> {
    match f
    case None => []
    case Some(fill) => [fill]
  }

  function ActivationFills(c: Config, token: Token, book: OrderBook, delayed: seq<LiveOrder>): seq<Fill> {
    if delayed == [] then []
    else
      var last := delayed[|delayed| - 1];
      ActivationFills(c, token, book, delayed[..|delayed| - 1]) +
      if Matured(last, token, book.timestampMs) then OneOrNone(TakerFill(c, book, last, book.timestampMs)) else []
  }

  /** Makers filled by one update, in the order the resting map is visited. */
  function SweepFills(c: Config, book: OrderBook, resting: map<string, LiveOrder>, visit: seq<string>): seq<Fill> {
    if visit == [] then []
    else
      SweepFills(c, book, resting, visit[..|visit| - 1]) + FillAt(c, book, resting, visit[|visit| - 1])
  }

  function FillAt(c: Config, book: OrderBook, resting: map<string, LiveOrder>, id: string): seq<Fill> {
    if id in resting then OneOrNone(MakerFill(c, book, resting[id])) else []
  }

  function Swept(c: Config, token: Token, book: OrderBook, resting: map<string, LiveOrder>): map<string, LiveOrder> {
    map id | id in resting && AfterSweep(c, token, book, resting[id]).Some?
      :: AfterSweep(c, token, book, resting[id]).value
  }

  /** The resting map when the sweep has visited `done`. */
  ghost function PartlySwept(
    c: Config, token: Token, book: OrderBook, resting: map<string, LiveOrder>, done: set<string>): map<string, LiveOrder>
  {
    map id | id in resting && (id in done ==> AfterSweep(c, token, book, resting[id]).Some?)
      :: if id in done then AfterSweep(c, token, book, resting[id]).value else resting[id]
  }

  lemma SweepStarts(c: Config, token: Token, book: OrderBook, resting: map<string, LiveOrder>)
    ensures PartlySwept(c, token, book, resting, {}) == resting
  {
  }

  lemma SweepStep(
    c: Config, token: Token, book: OrderBook, resting: map<string, LiveOrder>, done: set<string>, id: string)
    requires id in resting && id !in done
    ensures var now, left := PartlySwept(c, token, book, resting, done), AfterSweep(c, token, book, resting[id]);
      id in now && now[id] == resting[id] &&
      PartlySwept(c, token, book, resting, done + {id}) == if left.Some? then now[id := left.value] else now - {id}
  {
  }

  lemma SweepEnds(
    c: Config, token: Token, book: OrderBook, resting: map<string, LiveOrder>, done: set<string>)
    requires forall id :: id in done <==> id in resting && Crossed(resting[id], token, book)
    ensures PartlySwept(c, token, book, resting, done) == Swept(c, token, book, resting)
  {
  }

  ghost predicate NoDuplicates(visit: seq<string>) {
    forall i, j :: 0 <= i < j < |visit| ==> visit[i] != visit[j]
  }

  /** `visit` lists every crossed resting order exactly once: some iteration order of the map. */
  ghost predicate IsVisit(visit: seq<string>, resting: map<string, LiveOrder>, token: Token, book: OrderBook) {
    NoDuplicates(visit) && forall id :: id in visit <==> id in resting && Crossed(resting[id], token, book)
  }

  /** The visiting order of an update, read off the map the sweep actually sees. */
  ghost predicate IsVisitOf(visit: seq<string>, e: Engine, token: Token, book: OrderBook) {
    IsVisit(visit, UnexpiredResting(e.resting, token, book.timestampMs), token, book)
  }

  function BookUpdated(c: Config, e: Engine, token: Token, book: OrderBook, visit: seq<string>): Engine
  {
    var now := book.timestampMs;
    var resting := UnexpiredResting(e.resting, token, now);
    var delayed := UnexpiredDelayed(e.delayed, token, now);
    Engine(
      e.books[token := book],
      Swept(c, token, book, resting),
      StillDelayed(delayed, token, now),
      e.pending + ActivationFills(c, token, book, delayed) + SweepFills(c, book, resting, visit),
      e.nextId)
  }

  lemma ActivationStarts(c: Config, token: Token, book: OrderBook, delayed: seq<LiveOrder>)
    ensures ActivationFills(c, token, book, delayed[..0]) == [] && StillDelayed(delayed[..0], token, book.timestampMs) == []
  {
  }

  lemma ActivationStep(c: Config, token: Token, book: OrderBook, delayed: seq<LiveOrder>, i: nat)
    requires i < |delayed|
    ensures ActivationFills(c, token, book, delayed[..i + 1]) == ActivationFills(c, token, book, delayed[..i])
      + if Matured(delayed[i], token, book.timestampMs)
        then OneOrNone(TakerFill(c, book, delayed[i], book.timestampMs)) else []
    ensures StillDelayed(delayed[..i + 1], token, book.timestampMs)
         == StillDelayed(delayed[..i], token, book.timestampMs)
            + if Matured(delayed[i], token, book.timestampMs) then [] else [delayed[i]]
  {
    hide TakerFill, OneOrNone, Matured;
    assert delayed[..i + 1][..i] == delayed[..i];
  }

  // ----- submission and cancellation

  function NewOrder(c: Config, e: Engine, order: PlaceOrder, strategy: Option<string>, now: Millis): LiveOrder {
    LiveOrder(Numbered(c.idPrefix, e.nextId), order, now, SaturatingAdd(now, c.latencyMs), strategy)
  }

  function Submitted(c: Config, e: Engine, order: PlaceOrder, strategy: Option<string>, now: Millis): (Engine, Option<string>) {
    if Expired(order, now) || c.violatesLimits(order) then (e, None)
    else
      var o := NewOrder(c, e, order, strategy, now);
      var minted := e.(nextId := e.nextId + 1);
      var token := TokenOf(order);
      if order.postOnly then
        if token !in e.books || Touches(e.books[token], order) then (minted, None)
        else (minted.(resting := e.resting[o.orderId := o]), Some(o.orderId))
      else if c.latencyMs > 0 then
        (minted.(delayed := e.delayed + [o]), Some(o.orderId))
      else if token !in e.books then (minted, None)
      else
        match TakerFill(c, e.books[token], o, now)
        case None => (minted, None)
        case Some(f) => (minted.(pending := e.pending + [f]), Some(o.orderId))
  }

  function PositionOf(delayed: seq<LiveOrder>, id: string): (i: nat)
    ensures i <= |delayed|
    ensures i < |delayed| ==> delayed[i].orderId == id
    ensures forall j :: 0 <= j < i ==> delayed[j].orderId != id
  {
    if delayed == [] || delayed[0].orderId == id then 0
    else
      var k := PositionOf(delayed[1..], id);
      assert forall j :: 1 <= j < k + 1 ==> delayed[j] == delayed[1..][j - 1];
      k + 1
  }

  /** Resting orders are looked up first; a delayed order only when no resting one matches. */
  function Cancelled(e: Engine, id: string): (Engine, bool) {
    var i := PositionOf(e.delayed, id);
    if id in e.resting then (e.(resting := e.resting - {id}), true)
    else if i < |e.delayed| then (e.(delayed := e.delayed[..i] + e.delayed[i + 1..]), true)
    else (e, false)
  }

  function AllCancelled(e: Engine): Engine {
    e.(resting := map[], delayed := [])
  }

  function WorthOf(o: LiveOrder): real {
    Notional(o.order.price, o.order.qty)
  }

  /** Notional of the resting orders, whatever order the map is visited in. */
  ghost function RestingWorth(resting: map<string, LiveOrder>): real
    decreases |resting|
  {
    if resting == map[] then 0.0
    else
      var id :| id in resting;
      WorthOf(resting[id]) + RestingWorth(resting - {id})
  }

  function DelayedWorth(delayed: seq<LiveOrder>): real {
    if delayed == [] then 0.0 else DelayedWorth(delayed[..|delayed| - 1]) + WorthOf(delayed[|delayed| - 1])
  }

  ghost function OpenWorth(e: Engine): real {
    RestingWorth(e.resting) + DelayedWorth(e.delayed)
  }

  lemma NothingResting()
    ensures RestingWorth(map[]) == 0.0
  {
  }

  lemma {:induction false} RestingSplit(resting: map<string, LiveOrder>, id: string)
    requires id in resting
    ensures RestingWorth(resting) == WorthOf(resting[id]) + RestingWorth(resting - {id})
    decreases |resting|
  {
    hide WorthOf;
    var first :| first in resting && RestingWorth(resting) == WorthOf(resting[first]) + RestingWorth(resting - {first});
    if first != id {
      RestingSplit(resting - {first}, id);
      RestingSplit(resting - {id}, first);
      assert resting - {first} - {id} == resting - {id} - {first};
    }
  }

  lemma {:induction false} DelayedSplit(delayed: seq<LiveOrder>, i: nat)
    requires i < |delayed|
    ensures DelayedWorth(delayed) == WorthOf(delayed[i]) + DelayedWorth(delayed[..i] + delayed[i + 1..])
    decreases |delayed|
  {
    hide WorthOf;
    var n := |delayed| - 1;
    var rest := delayed[..i] + delayed[i + 1..];
    if i == n {
      assert rest == delayed[..n];
    } else {
      DelayedSplit(delayed[..n], i);
      assert rest[..n - 1] == delayed[..n][..i] + delayed[..n][i + 1..];
      assert rest[n - 1] == delayed[n];
    }
  }

  ghost function OpenIds(e: Engine): set<string> {
    e.resting.Keys + set o | o in e.delayed :: o.orderId
  }

  // ----- the engine as an object

  class SimEngine {
    const config: Config
    var books: map<Token, OrderBook>
    var resting: map<string, LiveOrder>
    var delayed: seq<LiveOrder>
    var pending: seq<Fill>
    var nextId: nat

    function Value(): Engine
      reads this
    {
      Engine(books, resting, delayed, pending, nextId)
    }

    constructor (config: Config)
      ensures Value() == EMPTY_ENGINE && this.config == config
    {
      this.config := config;
      books, resting, delayed, pending, nextId := map[], map[], [], [], 0;
    }

    method UpdateBook(token: Token, book: OrderBook) returns (ghost visit: seq<string>)
      modifies this
      ensures IsVisitOf(visit, old(Value()), token, book)
      ensures Value() == BookUpdated(config, old(Value()), token, book, visit)
    {
      books := books[token := book];
      ExpireOrders(token, book.timestampMs);
      ActivateDelayed(token, book);
      visit := CheckRestingFills(token, book);
    }

    method ExpireOrders(token: Token, now: Millis)
      modifies this`resting, this`delayed
      ensures resting == UnexpiredResting(old(resting), token, now)
      ensures delayed == UnexpiredDelayed(old(delayed), token, now)
    {
      resting := map id | id in resting && !Dropped(resting[id], token, now) :: resting[id];
      var kept: seq<LiveOrder> := [];
      var i := 0;
      while i < |delayed|
        invariant 0 <= i <= |delayed|
        invariant kept == UnexpiredDelayed(delayed[..i], token, now)
      {
        assert delayed[..i + 1][..i] == delayed[..i];
        if !Dropped(delayed[i], token, now) {
          kept := kept + [delayed[i]];
        }
        i := i + 1;
      }
      assert delayed[..i] == delayed;
      delayed := kept;
    }

    method ActivateDelayed(token: Token, book: OrderBook)
      modifies this`delayed, this`pending
      ensures delayed == StillDelayed(old(delayed), token, book.timestampMs)
      ensures pending == old(pending) + ActivationFills(config, token, book, old(delayed))
    {
      hide ActivationFills, StillDelayed, TakerFill, OneOrNone;
      var taken := delayed;
      ActivationStarts(config, token, book, taken);
      var remaining: seq<LiveOrder> := [];
      var i := 0;
      while i < |taken|
        invariant 0 <= i <= |taken|
        invariant remaining == StillDelayed(taken[..i], token, book.timestampMs)
        invariant pending == old(pending) + ActivationFills(config, token, book, taken[..i])
      {
        ActivationStep(config, token, book, taken, i);
        if Matured(taken[i], token, book.timestampMs) {
          var _ := SubmitTaker(taken[i], book, book.timestampMs);
        } else {
          remaining := remaining + [taken[i]];
        }
        i := i + 1;
      }
      assert taken[..i] == taken;
      delayed := remaining;
    }

    method SubmitTaker(o: LiveOrder, book: OrderBook, fillMs: Millis) returns (filled: bool)
      modifies this`pending
      ensures filled == TakerFill(config, book, o, fillMs).Some?
      ensures pending == old(pending) + OneOrNone(TakerFill(config, book, o, fillMs))
    {
      var order := o.order;
      var walked := WalkBook(Against(book, order.side), order.qty, order.price, order.side);
      if walked.None? {
        return false;
      }
      var (average, qty) := walked.value;
      var price := AdversePrice(config, order.side, average, order.price);
      var fee := config.fee(qty, price, Taker);
      if fee.None? {
        return false;
      }
      pending := pending + [Fill(o.orderId, order.market, order.outcome, price, qty, order.side, fee.value,
                                 Taker, Later(fillMs, o.submittedMs))];
      filled := true;
    }

    /** Crossed makers are taken out one by one in an arbitrary order and put back unless filled. */
    method CheckRestingFills(token: Token, book: OrderBook) returns (ghost visit: seq<string>)
      modifies this`resting, this`pending
      ensures IsVisit(visit, old(resting), token, book)
      ensures resting == Swept(config, token, book, old(resting))
      ensures pending == old(pending) + SweepFills(config, book, old(resting), visit)
    {
      hide AfterSweep, Swept, PartlySwept, MakerFill, OneOrNone;
      var toFill := set id | id in resting && Crossed(resting[id], token, book);
      ghost var crossed, before := toFill, resting;
      visit := [];
      SweepStarts(config, token, book, before);
      assert crossed - toFill == {};
      while toFill != {}
        invariant toFill <= crossed && crossed <= before.Keys
        invariant NoDuplicates(visit) && forall id :: id in visit <==> id in crossed - toFill
        invariant resting == PartlySwept(config, token, book, before, crossed - toFill)
        invariant pending == old(pending) + SweepFills(config, book, before, visit)
        decreases toFill
      {
        var id :| id in toFill;
        SweepStep(config, token, book, before, crossed - toFill, id);
        FillMaker(id, token, book);
        assert (visit + [id])[..|visit|] == visit;
        visit := visit + [id];
        assert crossed - (toFill - {id}) == (crossed - toFill) + {id};
        toFill := toFill - {id};
      }
      assert crossed - toFill == crossed;
      SweepEnds(config, token, book, before, crossed);
    }

    method FillMaker(id: string, token: Token, book: OrderBook)
      requires id in resting && Crossed(resting[id], token, book)
      modifies this`resting, this`pending
      ensures var left := AfterSweep(config, token, book, old(resting)[id]);
        resting == if left.Some? then old(resting)[id := left.value] else old(resting) - {id}
      ensures pending == old(pending) + OneOrNone(MakerFill(config, book, old(resting)[id]))
    {
      var o := resting[id];
      resting := resting - {id};
      var qty := MakerQuantity(config, book, o.order);
      if qty == 0.0 {
        resting := resting[id := o];
        return;
      }
      var fee := config.fee(qty, o.order.price, Maker);
      if fee.None? {
        resting := resting[id := o];
        return;
      }
      pending := pending + [Fill(o.orderId, o.order.market, o.order.outcome, o.order.price, qty, o.order.side,
                                 fee.value, Maker, Later(book.timestampMs, o.submittedMs))];
      if o.order.qty - qty != 0.0 {
        resting := resting[id := Lessened(o, qty)];
      }
    }

    method Submit(order: PlaceOrder, strategy: Option<string>, now: Millis) returns (id: Option<string>)
      modifies this
      ensures Value() == Submitted(config, old(Value()), order, strategy, now).0
      ensures id == Submitted(config, old(Value()), order, strategy, now).1
    {
      if Expired(order, now) || config.violatesLimits(order) {
        return None;
      }
      var o := NewOrder(config, Value(), order, strategy, now);
      nextId := nextId + 1;
      var token := TokenOf(order);
      if order.postOnly {
        if token !in books || Touches(books[token], order) {
          return None;
        }
        resting := resting[o.orderId := o];
        return Some(o.orderId);
      }
      if config.latencyMs > 0 {
        delayed := delayed + [o];
        return Some(o.orderId);
      }
      if token !in books {
        return None;
      }
      var filled := SubmitTaker(o, books[token], now);
      id := if filled then Some(o.orderId) else None;
    }

    /** Cancels an order and returns the notional it frees, if it was there. */
    method Cancel(id: string) returns (freed: Option<real>)
      modifies this
      ensures Value() == Cancelled(old(Value()), id).0 && freed.Some? == Cancelled(old(Value()), id).1
      ensures freed.Some? ==> freed.value + OpenWorth(Value()) == OpenWorth(old(Value()))
    {
      if id in resting {
        RestingSplit(resting, id);
        freed := Some(WorthOf(resting[id]));
        resting := resting - {id};
        return;
      }
      var i := PositionOf(delayed, id);
      if i < |delayed| {
        DelayedSplit(delayed, i);
        freed := Some(WorthOf(delayed[i]));
        delayed := delayed[..i] + delayed[i + 1..];
        return;
      }
      freed := None;
    }

    /** Cancels every order and returns the notional they held together. */
    method CancelAll() returns (freed: real)
      modifies this
      ensures Value() == AllCancelled(old(Value())) && freed == OpenWorth(old(Value()))
    {
      hide WorthOf, RestingWorth;
      freed := 0.0;
      var i := 0;
      while i < |delayed|
        invariant 0 <= i <= |delayed| && freed == DelayedWorth(delayed[..i]) && Value() == old(Value())
      {
        assert delayed[..i + 1][..i] == delayed[..i];
        freed := freed + WorthOf(delayed[i]);
        i := i + 1;
      }
      assert delayed[..i] == delayed;
      var todo := resting;
      while todo.Keys != {}
        invariant freed + RestingWorth(todo) == OpenWorth(old(Value())) && Value() == old(Value())
        decreases |todo.Keys|
      {
        var id :| id in todo.Keys;
        RestingSplit(todo, id);
        freed := freed + WorthOf(todo[id]);
        assert (todo - {id}).Keys == todo.Keys - {id};
        todo := todo - {id};
      }
      assert todo == map[];
      NothingResting();
      resting, delayed := map[], [];
    }

    method DrainFills() returns (drained: seq<Fill>)
      modifies this`pending
      ensures drained == old(pending) && pending == []
    {
      drained := pending;
      pending := [];
    }
  }

  // ----- the visiting order of the resting map does not matter

  lemma {:induction false} SweepSplits(
    c: Config, book: OrderBook, resting: map<string, LiveOrder>, left: seq<string>, right: seq<string>)
    ensures SweepFills(c, book, resting, left + right)
         == SweepFills(c, book, resting, left) + SweepFills(c, book, resting, right)
    decreases |right|
  {
    if right == [] {
      assert left + right == left;
    } else {
      var n := |right| - 1;
      assert (left + right)[..|left| + n] == left + right[..n];
      SweepSplits(c, book, resting, left, right[..n]);
    }
  }

  /** Fills queued by a sweep, without their order. */
  ghost function SweepBag(c: Config, book: OrderBook, resting: map<string, LiveOrder>, visit: seq<string>): multiset<Fill> {
    multiset(SweepFills(c, book, resting, visit))
  }

  function WithoutAt(visit: seq<string>, k: nat): seq<string>
    requires k < |visit|
  {
    visit[..k] + visit[k + 1..]
  }

  lemma BagAround(c: Config, book: OrderBook, resting: map<string, LiveOrder>, visit: seq<string>, k: nat)
    requires k < |visit|
    ensures SweepBag(c, book, resting, visit)
         == SweepBag(c, book, resting, WithoutAt(visit, k)) + SweepBag(c, book, resting, [visit[k]])
    ensures multiset(visit) == multiset(WithoutAt(visit, k)) + multiset{visit[k]}
  {
    hide SweepFills;
    var left, id, right := visit[..k], visit[k], visit[k + 1..];
    assert visit == (left + [id]) + right;
    SweepSplits(c, book, resting, left + [id], right);
    SweepSplits(c, book, resting, left, [id]);
    SweepSplits(c, book, resting, left, right);
  }

  lemma {:induction false} SweepOrderIrrelevant(
    c: Config, book: OrderBook, resting: map<string, LiveOrder>, one: seq<string>, two: seq<string>)
    requires multiset(one) == multiset(two)
    ensures SweepBag(c, book, resting, one) == SweepBag(c, book, resting, two)
    decreases |one|
  {
    assert |one| == |multiset(one)| == |two|;
    if one != [] {
      var id := one[0];
      assert id in multiset(two);
      var k :| 0 <= k < |two| && two[k] == id;
      var tail, rest := WithoutAt(one, 0), WithoutAt(two, k);
      assert multiset(tail) == multiset(rest) by {
        BagAround(c, book, resting, one, 0);
        BagAround(c, book, resting, two, k);
        assert multiset(tail) == (multiset(tail) + multiset{id}) - multiset{id};
        assert multiset(rest) == (multiset(rest) + multiset{id}) - multiset{id};
      }
      assert SweepBag(c, book, resting, one)
          == SweepBag(c, book, resting, tail) + SweepBag(c, book, resting, [id]) by {
        BagAround(c, book, resting, one, 0);
      }
      assert SweepBag(c, book, resting, two)
          == SweepBag(c, book, resting, rest) + SweepBag(c, book, resting, [id]) by {
        BagAround(c, book, resting, two, k);
      }
      SweepOrderIrrelevant(c, book, resting, tail, rest);
    }
  }

  lemma {:induction false} CountsOnce(visit: seq<string>, id: string)
    requires NoDuplicates(visit)
    ensures multiset(visit)[id] == if id in visit then 1 else 0
    decreases |visit|
  {
    if visit != [] {
      var n := |visit| - 1;
      CountsOnce(visit[..n], id);
      assert visit == visit[..n] + [visit[n]];
    }
  }

  /**
   * Two iterations of the resting map in different orders leave the same engine, and the fills they
   * queue are the same multiset.
   */
  lemma VisitingOrderIrrelevant(
    c: Config, e: Engine, token: Token, book: OrderBook, one: seq<string>, two: seq<string>)
    requires IsVisitOf(one, e, token, book) && IsVisitOf(two, e, token, book)
    ensures var a, b := BookUpdated(c, e, token, book, one), BookUpdated(c, e, token, book, two);
      a.(pending := []) == b.(pending := []) && multiset(a.pending) == multiset(b.pending)
  {
    forall id ensures multiset(one)[id] == multiset(two)[id] {
      CountsOnce(one, id);
      CountsOnce(two, id);
    }
    SweepOrderIrrelevant(c, book, UnexpiredResting(e.resting, token, book.timestampMs), one, two);
  }
}
