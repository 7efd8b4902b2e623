/** How far the iteration order of a book update shows in the ledger. */
module Visits {
  import opened Trading
  import opened Simulator
  import opened Executor
  import opened Agreement
  import A = Accounting
  import L = Ledger

  // ----- sums over fills

  function Sum(amount: Fill -> real, fills: seq<Fill>): real {
    if fills == [] then 0.0 else Sum(amount, fills[..|fills| - 1]) + amount(fills[|fills| - 1])
  }

  lemma {:induction false} SumWithout(amount: Fill -> real, fills: seq<Fill>, i: nat)
    requires i < |fills|
    ensures Sum(amount, fills) == Sum(amount, fills[..i] + fills[i + 1..]) + amount(fills[i])
    decreases |fills|
  {
    var n := |fills| - 1;
    var rest := fills[..i] + fills[i + 1..];
    if i == n {
      assert rest == fills[..n];
    } else {
      SumWithout(amount, fills[..n], i);
      assert rest[..n - 1] == fills[..n][..i] + fills[..n][i + 1..];
      assert rest[n - 1] == fills[n];
    }
  }

  /** A sum does not depend on the order of its terms. */
  lemma {:induction false} SumPermutes(amount: Fill -> real, one: seq<Fill>, two: seq<Fill>)
    requires multiset(one) == multiset(two)
    ensures Sum(amount, one) == Sum(amount, two)
    decreases |one|
  {
    if one == [] {
      assert |two| == |multiset(two)| == 0;
    } else {
      var n := |one| - 1;
      assert one[n] in multiset(two);
      var i :| 0 <= i < |two| && two[i] == one[n];
      var rest := two[..i] + two[i + 1..];
      Without(one, n);
      Without(two, i);
      assert one[..n] + one[n + 1..] == one[..n];
      SumPermutes(amount, one[..n], rest);
      SumWithout(amount, two, i);
    }
  }

  lemma Without(s: seq<Fill>, i: nat)
    requires i < |s|
    ensures multiset(s[..i] + s[i + 1..]) == multiset(s) - multiset([s[i]])
  {
    assert s == s[..i] + [s[i]] + s[i + 1..];
  }

  /** What a fill does to the cash balance. */
  function CashOf(): Fill -> real {
    (f: Fill) => if f.side == Buy then -(Notional(f.price, f.size) + f.fee) else Notional(f.price, f.size) - f.fee
  }

  function FeeOf(): Fill -> real {
    (f: Fill) => f.fee
  }

  // ----- recording in any order

  lemma RecordedCash(l: L.State, f: Fill)
    requires RecordOne(l, f).1.Ok?
    ensures var m := RecordOne(l, f).0;
      m.account.cash == l.account.cash + CashOf()(f) && m.account.fees == l.account.fees + FeeOf()(f)
  {
    hide A.Bought, A.Held, A.Reduced, L.AfterFill, Notional;
  }

  /** Cash and fees after a batch are sums over its fills. */
  lemma {:induction false} BatchCash(l: L.State, fills: seq<Fill>)
    requires RecordAll(l, fills).1.Ok?
    ensures var m := RecordAll(l, fills).0;
      m.account.cash == l.account.cash + Sum(CashOf(), fills) && m.account.fees == l.account.fees + Sum(FeeOf(), fills)
    decreases |fills|
  {
    hide RecordOne;
    if fills != [] {
      var n := |fills| - 1;
      BatchCash(l, fills[..n]);
      RecordedCash(RecordAll(l, fills[..n]).0, fills[n]);
    }
  }

  lemma SameRecordedOrders(before: map<string, L.Tracked>, one: seq<Fill>, two: seq<Fill>, a: map<string, L.Tracked>, b: map<string, L.Tracked>)
    requires multiset(one) == multiset(two) && Expected(before, one)
    requires RecordedOrders(before, one, a) && RecordedOrders(before, two, b)
    ensures a == b
  {
    hide L.Remainder, L.FillMatches;
    assert forall f :: f in one <==> f in multiset(one);
    assert forall f :: f in two <==> f in multiset(two);
    forall id ensures At(a, id) == At(b, id) {
      if FillsOrder(one, id) {
        var f :| f in one && f.orderId == id;
        assert f in two;
      } else {
        assert !FillsOrder(two, id);
      }
    }
    forall id ensures id in a <==> id in b {
      assert At(a, id) == At(b, id);
    }
    forall id | id in a ensures a[id] == b[id] {
      assert At(a, id) == At(b, id);
    }
  }

  /** Fills that can be booked in either order leave the same orders, cash and fees. */
  lemma BookedInAnyOrder(l: L.State, one: seq<Fill>, two: seq<Fill>)
    requires multiset(one) == multiset(two) && Expected(l.orders, one) && Expected(l.orders, two)
    requires RecordAll(l, one).1.Ok? && RecordAll(l, two).1.Ok?
    ensures var a, b := RecordAll(l, one).0, RecordAll(l, two).0;
      a.orders == b.orders && a.account.cash == b.account.cash && a.account.fees == b.account.fees
  {
    hide RecordAll, Expected, RecordedOrders;
    RecordAllEffect(l, one);
    RecordAllEffect(l, two);
    BatchCash(l, one);
    BatchCash(l, two);
    SumPermutes(CashOf(), one, two);
    SumPermutes(FeeOf(), one, two);
    SameRecordedOrders(l.orders, one, two, RecordAll(l, one).0.orders, RecordAll(l, two).0.orders);
  }

  /** A purchase the accounting always takes. */
  predicate PlainBuy(f: Fill) {
    f.side == Buy && f.price >= 0.0 && f.size > 0.0 && f.fee >= 0.0
  }

  lemma BuyIsBooked(l: L.State, f: Fill)
    requires PlainBuy(f) && A.Sound(l.account.positions)
    requires f.orderId in l.orders && L.FillMatches(l.orders[f.orderId], LedgerFillOf(f))
    ensures RecordOne(l, f).1.Ok? && A.Sound(RecordOne(l, f).0.account.positions)
  {
    hide A.Bought, A.Sound, L.AfterFill, L.FillMatches;
    A.BoughtKeeps(l.account.positions, f.market, f.outcome, f.size, f.price);
  }

  lemma {:induction false} BuysAreBooked(l: L.State, fills: seq<Fill>)
    requires Expected(l.orders, fills) && A.Sound(l.account.positions) && forall f :: f in fills ==> PlainBuy(f)
    ensures RecordAll(l, fills).1.Ok? && A.Sound(RecordAll(l, fills).0.account.positions)
    decreases |fills|
  {
    hide RecordOne, A.Sound, L.FillMatches, PlainBuy;
    if fills != [] {
      var n := |fills| - 1;
      var front, last := fills[..n], fills[n];
      assert forall f :: f in front ==> f in fills;
      assert last in fills;
      BuysAreBooked(l, front);
      RecordAllEffect(l, front);
      var m := RecordAll(l, front).0;
      assert !FillsOrder(front, last.orderId);
      assert At(m.orders, last.orderId) == At(l.orders, last.orderId);
      BuyIsBooked(m, last);
    }
  }

  /**
   * One update under two iteration orders. If both are booked completely they leave the same orders, cash and
   * fees in the ledger; and when every fill is a purchase both always are.
   */
  lemma LedgerSeesNoOrder(
    c: Config, s: Exec, lax: bool, token: Token, book: OrderBook, one: seq<string>, two: seq<string>)
    requires Agree(c, s, lax) && IsVisitOf(one, s.engine, token, book) && IsVisitOf(two, s.engine, token, book)
    ensures var fills, other := BookUpdated(c, s.engine, token, book, one).pending, BookUpdated(c, s.engine, token, book, two).pending;
      var (a, v) := RecordAll(s.ledger, fills);
      var (b, w) := RecordAll(s.ledger, other);
      && (v.Ok? && w.Ok? ==>
        a.orders == b.orders && a.account.cash == b.account.cash && a.account.fees == b.account.fees)
      && (A.Sound(s.ledger.account.positions) && (forall f :: f in fills ==> PlainBuy(f)) ==> v.Ok? && w.Ok?)
  {
    hide BookUpdated, RecordAll, Agree, Expected, IsVisitOf, A.Sound, PlainBuy;
    var fills, other := BookUpdated(c, s.engine, token, book, one).pending, BookUpdated(c, s.engine, token, book, two).pending;
    UpdateExpected(c, s, lax, token, book, one);
    UpdateExpected(c, s, lax, token, book, two);
    VisitingOrderIrrelevant(c, s.engine, token, book, one, two);
    if RecordAll(s.ledger, fills).1.Ok? && RecordAll(s.ledger, other).1.Ok? {
      BookedInAnyOrder(s.ledger, fills, other);
    }
    if A.Sound(s.ledger.account.positions) && forall f :: f in fills ==> PlainBuy(f) {
      BuysAreBooked(s.ledger, fills);
      forall f | f in other ensures PlainBuy(f) {
        assert f in multiset(other);
        assert f in fills;
      }
      BuysAreBooked(s.ledger, other);
    }
  }

  // ----- what is held of one token

  function Quantity(ps: seq<A.Position>, token: Token): real {
    A.Held(ps, token.0, token.1).quantity
  }

  lemma {:induction false} AllNonEmpty(ps: seq<A.Position>)
    requires forall i :: 0 <= i < |ps| ==> ps[i].quantity != 0.0
    ensures A.NonEmpty(ps) == ps
    decreases |ps|
  {
    if ps != [] {
      AllNonEmpty(ps[..|ps| - 1]);
    }
  }

  /** A sound list with one position emptied loses just that one. */
  lemma {:induction false} OneEmptied(ps: seq<A.Position>, i: nat)
    requires i < |ps| && ps[i].quantity == 0.0 && forall j :: 0 <= j < |ps| && j != i ==> ps[j].quantity != 0.0
    ensures A.NonEmpty(ps) == ps[..i] + ps[i + 1..]
    decreases |ps|
  {
    var n := |ps| - 1;
    if i == n {
      AllNonEmpty(ps[..n]);
      assert ps[..i] + ps[i + 1..] == ps[..n];
    } else {
      OneEmptied(ps[..n], i);
      assert ps[..i] + ps[i + 1..] == (ps[..n][..i] + ps[..n][i + 1..]) + [ps[n]];
    }
  }

  lemma IndexIs(ps: seq<A.Position>, token: Token, i: nat)
    requires A.Unique(ps) && i < |ps| && (ps[i].market, ps[i].outcome) == token
    ensures A.IndexOf(ps, token.0, token.1) == i
  {
    var k := A.IndexOf(ps, token.0, token.1);
    assert k < |ps| && A.SameToken(ps[k], ps[i]);
  }

  lemma NotHeld(ps: seq<A.Position>, token: Token)
    requires forall i :: 0 <= i < |ps| ==> (ps[i].market, ps[i].outcome) != token
    ensures A.IndexOf(ps, token.0, token.1) == |ps| && Quantity(ps, token) == 0.0
  {
  }

  lemma HeldIsNatural(ps: seq<A.Position>, token: Token)
    requires A.Sound(ps)
    ensures Quantity(ps, token) >= 0.0
  {
  }

  lemma BoughtQuantity(ps: seq<A.Position>, token: Token, size: real, price: real)
    requires A.Sound(ps) && size > 0.0 && A.Bought(ps, token.0, token.1, size, price).Some?
    ensures Quantity(A.Bought(ps, token.0, token.1, size, price).value, token) == Quantity(ps, token) + size
  {
    hide A.Increased, Notional;
    var i := A.IndexOf(ps, token.0, token.1);
    var after := A.Bought(ps, token.0, token.1, size, price).value;
    A.BoughtKeeps(ps, token.0, token.1, size, price);
    IncreasedBy(ps, i, size, price);
    IndexIs(after, token, i);
  }

  lemma IncreasedBy(ps: seq<A.Position>, i: nat, size: real, price: real)
    ensures i < |ps| && ps[i].quantity + size != 0.0 ==>
      var p := A.Increased(ps[i], size, price);
      p.quantity == ps[i].quantity + size && p.market == ps[i].market && p.outcome == ps[i].outcome
  {
  }

  /** Selling part of a position keeps its place; selling all of it takes it off the list. */
  lemma ReducedPositions(ps: seq<A.Position>, token: Token, size: real)
    requires A.Sound(ps) && 0.0 < size <= Quantity(ps, token)
    ensures var i := A.IndexOf(ps, token.0, token.1);
      && i < |ps|
      && A.Reduced(ps, token.0, token.1, size) ==
        if size == ps[i].quantity then ps[..i] + ps[i + 1..] else ps[i := ps[i].(quantity := ps[i].quantity - size)]
  {
    hide A.NonEmpty, A.Unique;
    var i := A.IndexOf(ps, token.0, token.1);
    var after := ps[i := ps[i].(quantity := ps[i].quantity - size)];
    assert forall j :: 0 <= j < |ps| && j != i ==> after[j].quantity > 0.0;
    if size == ps[i].quantity {
      OneEmptied(after, i);
      assert after[..i] + after[i + 1..] == ps[..i] + ps[i + 1..];
    } else {
      AllNonEmpty(after);
    }
  }

  lemma ReducedQuantity(ps: seq<A.Position>, token: Token, size: real)
    requires A.Sound(ps) && 0.0 < size <= Quantity(ps, token)
    ensures Quantity(A.Reduced(ps, token.0, token.1, size), token) == Quantity(ps, token) - size
  {
    hide A.Reduced;
    var i := A.IndexOf(ps, token.0, token.1);
    ReducedPositions(ps, token, size);
    var after := A.Reduced(ps, token.0, token.1, size);
    if size == ps[i].quantity {
      forall j | 0 <= j < |after| ensures (after[j].market, after[j].outcome) != token {
        var k := if j < i then j else j + 1;
        assert after[j] == ps[k];
        assert !A.SameToken(ps[if k < i then k else i], ps[if k < i then i else k]);
      }
      NotHeld(after, token);
    } else {
      assert A.Unique(after) by {
        forall j, k | 0 <= j < k < |after| ensures !A.SameToken(after[j], after[k]) {
          assert !A.SameToken(ps[j], ps[k]);
        }
      }
      IndexIs(after, token, i);
    }
  }

  // ----- booking fills of one token

  /** A fill of the token with a nonnegative price and fee and a positive size. */
  predicate Plain(f: Fill, token: Token) {
    (f.market, f.outcome) == token && f.price >= 0.0 && f.fee >= 0.0 && f.size > 0.0
  }

  function SellOf(): Fill -> real {
    (f: Fill) => if f.side == Sell then f.size else 0.0
  }

  function NetOf(): Fill -> real {
    (f: Fill) => if f.side == Sell then -f.size else f.size
  }

  /** One fill is booked exactly when it is a purchase or enough is held. */
  lemma OneBooked(l: L.State, f: Fill, token: Token)
    requires Plain(f, token) && A.Sound(l.account.positions)
    requires f.orderId in l.orders && L.FillMatches(l.orders[f.orderId], LedgerFillOf(f))
    ensures var (m, v) := RecordOne(l, f);
      && (v.Ok? <==> f.side == Buy || f.size <= Quantity(l.account.positions, token))
      && (v.Ok? ==> A.Sound(m.account.positions))
      && (v.Ok? ==> Quantity(m.account.positions, token) == Quantity(l.account.positions, token) + NetOf()(f))
  {
    hide A.Bought, A.Reduced, A.Sound, L.AfterFill, L.FillMatches, Notional;
    var ps := l.account.positions;
    if f.side == Buy {
      A.BoughtKeeps(ps, f.market, f.outcome, f.size, f.price);
      BoughtQuantity(ps, token, f.size, f.price);
    } else if f.size <= Quantity(ps, token) {
      A.ReducedSound(ps, f.market, f.outcome, f.size);
      ReducedQuantity(ps, token, f.size);
    }
  }

  ghost predicate AllPlain(fills: seq<Fill>, token: Token) {
    forall f :: f in fills ==> Plain(f, token)
  }

  /** The last fill of a batch still finds its order as it was. */
  lemma LastIsMatched(l: L.State, fills: seq<Fill>)
    requires fills != [] && Expected(l.orders, fills) && RecordAll(l, fills[..|fills| - 1]).1.Ok?
    ensures var n := |fills| - 1;
      var m := RecordAll(l, fills[..n]).0;
      && Expected(l.orders, fills[..n])
      && fills[n].orderId in m.orders && L.FillMatches(m.orders[fills[n].orderId], LedgerFillOf(fills[n]))
  {
    hide RecordOne, L.FillMatches;
    var n := |fills| - 1;
    var front, last := fills[..n], fills[n];
    assert forall f :: f in front ==> f in fills;
    assert last in fills;
    RecordAllEffect(l, front);
    assert !FillsOrder(front, last.orderId);
    assert At(RecordAll(l, front).0.orders, last.orderId) == At(l.orders, last.orderId);
  }

  /** What a booked batch leaves held. */
  lemma {:induction false} BatchQuantity(l: L.State, fills: seq<Fill>, token: Token)
    requires Expected(l.orders, fills) && AllPlain(fills, token) && A.Sound(l.account.positions)
    requires RecordAll(l, fills).1.Ok?
    ensures var ps := RecordAll(l, fills).0.account.positions;
      A.Sound(ps) && Quantity(ps, token) == Quantity(l.account.positions, token) + Sum(NetOf(), fills)
    decreases |fills|
  {
    hide RecordOne, A.Sound, Expected, Plain, Quantity;
    if fills != [] {
      var n := |fills| - 1;
      assert fills[n] in fills && forall f :: f in fills[..n] ==> f in fills;
      LastIsMatched(l, fills);
      BatchQuantity(l, fills[..n], token);
      OneBooked(RecordAll(l, fills[..n]).0, fills[n], token);
    }
  }

  lemma {:induction false} SellsBound(fills: seq<Fill>, token: Token)
    requires AllPlain(fills, token)
    ensures 0.0 <= Sum(SellOf(), fills) && Sum(NetOf(), fills) >= -Sum(SellOf(), fills)
    decreases |fills|
  {
    if fills != [] {
      var n := |fills| - 1;
      assert fills[n] in fills && forall f :: f in fills[..n] ==> f in fills;
      SellsBound(fills[..n], token);
    }
  }

  /** If the sales together do not exceed what is held, the batch is booked in whatever order it comes. */
  lemma {:induction false} EnoughIsBooked(l: L.State, fills: seq<Fill>, token: Token)
    requires Expected(l.orders, fills) && AllPlain(fills, token) && A.Sound(l.account.positions)
    requires Sum(SellOf(), fills) <= Quantity(l.account.positions, token)
    ensures RecordAll(l, fills).1.Ok?
    decreases |fills|
  {
    hide RecordOne, A.Sound, Expected, Quantity;
    if fills != [] {
      var n := |fills| - 1;
      var front, last := fills[..n], fills[n];
      assert last in fills && forall f :: f in front ==> f in fills;
      ExpectedFront(l.orders, fills);
      EnoughIsBooked(l, front, token);
      LastIsMatched(l, fills);
      BatchQuantity(l, front, token);
      SellsBound(front, token);
      OneBooked(RecordAll(l, front).0, last, token);
    }
  }

  lemma ExpectedFront(orders: map<string, L.Tracked>, fills: seq<Fill>)
    requires fills != [] && Expected(orders, fills)
    ensures Expected(orders, fills[..|fills| - 1])
  {
    hide L.FillMatches;
    assert forall f :: f in fills[..|fills| - 1] ==> f in fills;
  }

  lemma {:induction false} SalesAreNet(fills: seq<Fill>)
    requires forall f :: f in fills ==> f.side == Sell
    ensures Sum(NetOf(), fills) == -Sum(SellOf(), fills)
    decreases |fills|
  {
    if fills != [] {
      var n := |fills| - 1;
      assert fills[n] in fills && forall f :: f in fills[..n] ==> f in fills;
      SalesAreNet(fills[..n]);
    }
  }

  /** Sales alone are booked exactly when they do not exceed what is held. */
  lemma SalesBookedIff(l: L.State, sales: seq<Fill>, token: Token)
    requires Expected(l.orders, sales) && AllPlain(sales, token) && A.Sound(l.account.positions)
    requires forall f :: f in sales ==> f.side == Sell
    ensures RecordAll(l, sales).1.Ok? <==> Sum(SellOf(), sales) <= Quantity(l.account.positions, token)
  {
    hide RecordAll, Expected, AllPlain, A.Sound, Quantity;
    if RecordAll(l, sales).1.Ok? {
      BatchQuantity(l, sales, token);
      SalesAreNet(sales);
      HeldIsNatural(RecordAll(l, sales).0.account.positions, token);
    }
    if Sum(SellOf(), sales) <= Quantity(l.account.positions, token) {
      EnoughIsBooked(l, sales, token);
    }
  }

  // ----- one update, every visiting order

  lemma {:induction false} RecordSplit(l: L.State, a: seq<Fill>, b: seq<Fill>)
    ensures RecordAll(l, a + b) == if RecordAll(l, a).1.Err? then RecordAll(l, a) else RecordAll(RecordAll(l, a).0, b)
    decreases |b|
  {
    hide RecordOne;
    if b == [] {
      assert a + b == a;
    } else {
      var n := |b| - 1;
      assert (a + b)[..|a| + n] == a + b[..n] && (a + b)[|a| + n] == b[n];
      RecordSplit(l, a, b[..n]);
    }
  }

  /** The second part of an expected batch is still expected after the first. */
  lemma ExpectedRest(l: L.State, a: seq<Fill>, b: seq<Fill>)
    requires Expected(l.orders, a + b) && RecordAll(l, a).1.Ok?
    ensures Expected(l.orders, a) && Expected(RecordAll(l, a).0.orders, b)
  {
    hide RecordAll, L.FillMatches, L.Remainder;
    var all := a + b;
    assert forall f :: f in a || f in b ==> f in all;
    assert OneEach(a) by { assert forall i :: 0 <= i < |a| ==> all[i] == a[i]; }
    assert OneEach(b) by { assert forall i :: 0 <= i < |b| ==> all[|a| + i] == b[i]; }
    RecordAllEffect(l, a);
    var m := RecordAll(l, a).0;
    forall f | f in b ensures f.orderId in m.orders && m.orders[f.orderId] == l.orders[f.orderId] {
      var j :| 0 <= j < |b| && b[j] == f;
      forall g | g in a ensures g.orderId != f.orderId {
        var i :| 0 <= i < |a| && a[i] == g;
        assert all[i] == g && all[|a| + j] == f;
      }
      assert !FillsOrder(a, f.orderId);
      assert At(m.orders, f.orderId) == At(l.orders, f.orderId);
    }
  }

  /** The visited orders of one side, in their order. */
  ghost function OnSide(resting: map<string, LiveOrder>, visit: seq<string>, side: Side): seq<string> {
    if visit == [] then []
    else
      var last := visit[|visit| - 1];
      OnSide(resting, visit[..|visit| - 1], side) +
      (if last in resting && resting[last].order.side == side then [last] else [])
  }

  lemma {:induction false} OnSideMembers(resting: map<string, LiveOrder>, visit: seq<string>, side: Side)
    requires NoDuplicates(visit)
    ensures var part := OnSide(resting, visit, side);
      NoDuplicates(part) && forall id :: id in part <==> id in visit && id in resting && resting[id].order.side == side
    decreases |visit|
  {
    if visit != [] {
      var n := |visit| - 1;
      OnSideMembers(resting, visit[..n], side);
      var front := OnSide(resting, visit[..n], side);
      assert forall id :: id in visit <==> id in visit[..n] || id == visit[n];
      assert visit[n] !in front;
    }
  }

  /** Sales first, then purchases: the worst order there is. */
  lemma SalesFirst(resting: map<string, LiveOrder>, visit: seq<string>, token: Token, book: OrderBook)
    requires IsVisit(visit, resting, token, book)
    ensures IsVisit(OnSide(resting, visit, Sell) + OnSide(resting, visit, Buy), resting, token, book)
  {
    hide Crossed;
    OnSideMembers(resting, visit, Sell);
    OnSideMembers(resting, visit, Buy);
    var sells, buys := OnSide(resting, visit, Sell), OnSide(resting, visit, Buy);
    assert forall i :: 0 <= i < |sells| ==> sells[i] in sells;
    assert forall i :: 0 <= i < |buys| ==> buys[i] in buys;
  }

  lemma {:induction false} SideOfFills(c: Config, book: OrderBook, resting: map<string, LiveOrder>, visit: seq<string>, side: Side)
    requires forall id :: id in visit ==> id in resting && resting[id].order.side == side
    ensures forall f :: f in SweepFills(c, book, resting, visit) ==> f.side == side
    decreases |visit|
  {
    hide MakerFill;
    if visit != [] {
      var n := |visit| - 1;
      assert visit[n] in visit && forall id :: id in visit[..n] ==> id in visit;
      SideOfFills(c, book, resting, visit[..n], side);
      MakerFillNames(c, book, resting[visit[n]]);
    }
  }

  lemma {:induction false} SumSplits(amount: Fill -> real, a: seq<Fill>, b: seq<Fill>)
    ensures Sum(amount, a + b) == Sum(amount, a) + Sum(amount, b)
    decreases |b|
  {
    if b == [] {
      assert a + b == a;
    } else {
      var n := |b| - 1;
      assert (a + b)[..|a| + n] == a + b[..n];
      SumSplits(amount, a, b[..n]);
    }
  }

  lemma {:induction false} NoSales(fills: seq<Fill>)
    requires forall f :: f in fills ==> f.side == Buy
    ensures Sum(SellOf(), fills) == 0.0
    decreases |fills|
  {
    if fills != [] {
      var n := |fills| - 1;
      assert fills[n] in fills && forall f :: f in fills[..n] ==> f in fills;
      NoSales(fills[..n]);
    }
  }

  /** The fills of an update that do not depend on the visiting order: delayed orders that activate. */
  function Activations(c: Config, s: Exec, token: Token, book: OrderBook): seq<Fill> {
    ActivationFills(c, token, book, UnexpiredDelayed(s.engine.delayed, token, book.timestampMs))
  }

  /** The maker fills of an update in one visiting order. */
  function Sweeps(c: Config, s: Exec, token: Token, book: OrderBook, visit: seq<string>): seq<Fill> {
    SweepFills(c, book, UnexpiredResting(s.engine.resting, token, book.timestampMs), visit)
  }

  lemma PendingParts(c: Config, s: Exec, lax: bool, token: Token, book: OrderBook, visit: seq<string>)
    requires Agree(c, s, lax)
    ensures BookUpdated(c, s.engine, token, book, visit).pending == Activations(c, s, token, book) + Sweeps(c, s, token, book, visit)
  {
    hide ActivationFills, SweepFills, Swept, StillDelayed, UnexpiredDelayed, UnexpiredResting, EngineInLedger, LedgerInEngine;
  }

  /** An update is done exactly when its fills are booked. */
  lemma DoneIsBooked(c: Config, s: Exec, lax: bool, token: Token, book: OrderBook, visit: seq<string>, maturing: seq<string>)
    requires Agree(c, s, lax)
    ensures BookUpdatedIn(c, s, token, book, visit, maturing).1 == Done <==>
      RecordAll(s.ledger, BookUpdated(c, s.engine, token, book, visit).pending).1.Ok?
  {
    hide BookUpdated, RecordAll, CancelEach, Agree;
    CancelEachEffect(RecordAll(s.ledger, BookUpdated(c, s.engine, token, book, visit).pending).0, maturing, book.timestampMs);
  }

  lemma SweepsPermute(c: Config, s: Exec, token: Token, book: OrderBook, one: seq<string>, two: seq<string>)
    requires IsVisitOf(one, s.engine, token, book) && IsVisitOf(two, s.engine, token, book)
    ensures multiset(Sweeps(c, s, token, book, one)) == multiset(Sweeps(c, s, token, book, two))
  {
    hide SweepFills, Crossed;
    forall id ensures multiset(one)[id] == multiset(two)[id] {
      CountsOnce(one, id);
      CountsOnce(two, id);
    }
    SweepOrderIrrelevant(c, book, UnexpiredResting(s.engine.resting, token, book.timestampMs), one, two);
  }

  /** Everything that the statements about visiting orders start from. */
  ghost predicate PlainUpdate(c: Config, s: Exec, lax: bool, token: Token, book: OrderBook, visit: seq<string>) {
    && Agree(c, s, lax) && A.Sound(s.ledger.account.positions)
    && IsVisitOf(visit, s.engine, token, book)
    && AllPlain(Activations(c, s, token, book), token) && AllPlain(Sweeps(c, s, token, book, visit), token)
  }

  lemma PlainForAll(c: Config, s: Exec, lax: bool, token: Token, book: OrderBook, visit: seq<string>, other: seq<string>)
    requires PlainUpdate(c, s, lax, token, book, visit) && IsVisitOf(other, s.engine, token, book)
    ensures PlainUpdate(c, s, lax, token, book, other)
    ensures Sum(SellOf(), Sweeps(c, s, token, book, other)) == Sum(SellOf(), Sweeps(c, s, token, book, visit))
  {
    hide Activations, Sweeps, Agree, A.Sound, IsVisitOf, Plain;
    SweepsPermute(c, s, token, book, visit, other);
    var one, two := Sweeps(c, s, token, book, visit), Sweeps(c, s, token, book, other);
    SumPermutes(SellOf(), two, one);
    forall f | f in two ensures Plain(f, token) {
      assert f in multiset(two);
      assert f in one;
    }
  }

  /** What an update needs: its activations booked, and the holding they leave. */
  ghost function AfterActivations(c: Config, s: Exec, token: Token, book: OrderBook): (L.State, L.Verdict) {
    RecordAll(s.ledger, Activations(c, s, token, book))
  }

  /** One visiting order is booked if its activations are and its maker fills then are. */
  lemma BookedInParts(c: Config, s: Exec, lax: bool, token: Token, book: OrderBook, visit: seq<string>, maturing: seq<string>)
    requires PlainUpdate(c, s, lax, token, book, visit)
    ensures var (m, v) := AfterActivations(c, s, token, book);
      && (v.Ok? ==> Expected(m.orders, Sweeps(c, s, token, book, visit)) && A.Sound(m.account.positions))
      && (BookUpdatedIn(c, s, token, book, visit, maturing).1 == Done <==>
        v.Ok? && RecordAll(m, Sweeps(c, s, token, book, visit)).1.Ok?)
  {
    hide RecordAll, BookUpdated, BookUpdatedIn, Activations, Sweeps, Agree, A.Sound, IsVisitOf, Expected, AllPlain;
    var acts, makers := Activations(c, s, token, book), Sweeps(c, s, token, book, visit);
    PendingParts(c, s, lax, token, book, visit);
    DoneIsBooked(c, s, lax, token, book, visit, maturing);
    UpdateExpected(c, s, lax, token, book, visit);
    RecordSplit(s.ledger, acts, makers);
    if RecordAll(s.ledger, acts).1.Ok? {
      ExpectedRest(s.ledger, acts, makers);
      BatchQuantity(s.ledger, acts, token);
    }
  }

  /** With sales first, the sales are booked before any purchase can help. */
  lemma SalesFirstNeedHolding(m: L.State, c: Config, s: Exec, lax: bool, token: Token, book: OrderBook, visit: seq<string>)
    requires PlainUpdate(c, s, lax, token, book, visit) && A.Sound(m.account.positions)
    requires var resting := UnexpiredResting(s.engine.resting, token, book.timestampMs);
      visit == OnSide(resting, visit, Sell) + OnSide(resting, visit, Buy)
    requires Expected(m.orders, Sweeps(c, s, token, book, visit)) && RecordAll(m, Sweeps(c, s, token, book, visit)).1.Ok?
    ensures Sum(SellOf(), Sweeps(c, s, token, book, visit)) <= Quantity(m.account.positions, token)
  {
    hide RecordAll, Agree, A.Sound, Expected, Quantity, SweepFills, Crossed, UnexpiredResting, Activations;
    var resting := UnexpiredResting(s.engine.resting, token, book.timestampMs);
    var sells, buys := OnSide(resting, visit, Sell), OnSide(resting, visit, Buy);
    OnSideMembers(resting, visit, Sell);
    OnSideMembers(resting, visit, Buy);
    SideOfFills(c, book, resting, sells, Sell);
    SideOfFills(c, book, resting, buys, Buy);
    SweepSplits(c, book, resting, sells, buys);
    var sold, bought := SweepFills(c, book, resting, sells), SweepFills(c, book, resting, buys);
    assert forall f :: f in sold ==> f in sold + bought;
    RecordSplit(m, sold, bought);
    ExpectedPrefix(m.orders, sold, bought);
    SalesBookedIff(m, sold, token);
    SumSplits(SellOf(), sold, bought);
    NoSales(bought);
  }

  lemma ExpectedPrefix(orders: map<string, L.Tracked>, a: seq<Fill>, b: seq<Fill>)
    requires Expected(orders, a + b)
    ensures Expected(orders, a)
  {
    hide L.FillMatches;
    assert forall f :: f in a ==> f in a + b;
    assert forall i :: 0 <= i < |a| ==> (a + b)[i] == a[i];
  }

  /**
   * Every visiting order of an update is booked if and only if the activations are and the maker sales of the
   * crossed orders together do not exceed the holding that the activations leave. All of it can be read off the
   * engine, the ledger and the book before the call.
   */
  lemma EveryVisitBooksIff(
    c: Config, s: Exec, lax: bool, token: Token, book: OrderBook, visit: seq<string>, maturing: seq<string>)
    requires PlainUpdate(c, s, lax, token, book, visit)
    ensures var (m, v) := AfterActivations(c, s, token, book);
      (forall w :: IsVisitOf(w, s.engine, token, book) ==> BookUpdatedIn(c, s, token, book, w, maturing).1 == Done) <==>
      v.Ok? && Sum(SellOf(), Sweeps(c, s, token, book, visit)) <= Quantity(m.account.positions, token)
  {
    hide PlainUpdate, AfterActivations, BookUpdatedIn, RecordAll, Sweeps, IsVisitOf, Quantity, Expected, A.Sound;
    var (m, v) := AfterActivations(c, s, token, book);
    var resting := UnexpiredResting(s.engine.resting, token, book.timestampMs);
    if forall w :: IsVisitOf(w, s.engine, token, book) ==> BookUpdatedIn(c, s, token, book, w, maturing).1 == Done {
      var worst := OnSide(resting, visit, Sell) + OnSide(resting, visit, Buy);
      WorstIsVisit(c, s, lax, token, book, visit);
      PlainForAll(c, s, lax, token, book, visit, worst);
      BookedInParts(c, s, lax, token, book, worst, maturing);
      SalesFirstNeedHolding(m, c, s, lax, token, book, worst);
    }
    if v.Ok? && Sum(SellOf(), Sweeps(c, s, token, book, visit)) <= Quantity(m.account.positions, token) {
      forall w | IsVisitOf(w, s.engine, token, book) ensures BookUpdatedIn(c, s, token, book, w, maturing).1 == Done {
        PlainForAll(c, s, lax, token, book, visit, w);
        BookedInParts(c, s, lax, token, book, w, maturing);
        PlainSweeps(c, s, lax, token, book, w);
        EnoughIsBooked(m, Sweeps(c, s, token, book, w), token);
      }
    }
  }

  lemma PlainSweeps(c: Config, s: Exec, lax: bool, token: Token, book: OrderBook, visit: seq<string>)
    requires PlainUpdate(c, s, lax, token, book, visit)
    ensures AllPlain(Sweeps(c, s, token, book, visit), token)
  {
    hide Agree, A.Sound, IsVisitOf, AllPlain, Sweeps, Activations;
  }

  lemma {:induction false} OneSideOnly(resting: map<string, LiveOrder>, visit: seq<string>, side: Side, asked: Side)
    requires forall id :: id in visit ==> id in resting && resting[id].order.side == side
    ensures OnSide(resting, visit, asked) == if asked == side then visit else []
    decreases |visit|
  {
    hide OnSide;
    if visit == [] {
      OnSideOfNone(resting, asked);
    } else {
      var n := |visit| - 1;
      assert visit[n] in visit && forall id :: id in visit[..n] ==> id in visit;
      OneSideOnly(resting, visit[..n], side, asked);
      OnSideStep(resting, visit, asked);
      assert visit == visit[..n] + [visit[n]];
    }
  }

  lemma OnSideOfNone(resting: map<string, LiveOrder>, side: Side)
    ensures OnSide(resting, [], side) == []
  {
  }

  lemma OnSideStep(resting: map<string, LiveOrder>, visit: seq<string>, side: Side)
    requires visit != []
    ensures var n := |visit| - 1;
      OnSide(resting, visit, side) == OnSide(resting, visit[..n], side) +
        (if visit[n] in resting && resting[visit[n]].order.side == side then [visit[n]] else [])
  {
  }

  lemma {:induction false} OnSideSplits(resting: map<string, LiveOrder>, a: seq<string>, b: seq<string>, side: Side)
    ensures OnSide(resting, a + b, side) == OnSide(resting, a, side) + OnSide(resting, b, side)
    decreases |b|
  {
    if b == [] {
      assert a + b == a;
    } else {
      var n := |b| - 1;
      assert (a + b)[..|a| + n] == a + b[..n];
      OnSideSplits(resting, a, b[..n], side);
    }
  }

  lemma WorstIsVisit(c: Config, s: Exec, lax: bool, token: Token, book: OrderBook, visit: seq<string>)
    requires PlainUpdate(c, s, lax, token, book, visit)
    ensures var resting := UnexpiredResting(s.engine.resting, token, book.timestampMs);
      var worst := OnSide(resting, visit, Sell) + OnSide(resting, visit, Buy);
      && IsVisitOf(worst, s.engine, token, book)
      && worst == OnSide(resting, worst, Sell) + OnSide(resting, worst, Buy)
  {
    hide Agree, A.Sound, AllPlain, Sweeps, Activations, Crossed, UnexpiredResting, OnSide;
    var resting := UnexpiredResting(s.engine.resting, token, book.timestampMs);
    SalesFirst(resting, visit, token, book);
    OnSideMembers(resting, visit, Sell);
    OnSideMembers(resting, visit, Buy);
    var sells, buys := OnSide(resting, visit, Sell), OnSide(resting, visit, Buy);
    OneSideOnly(resting, sells, Sell, Sell);
    OneSideOnly(resting, sells, Sell, Buy);
    OneSideOnly(resting, buys, Buy, Sell);
    OneSideOnly(resting, buys, Buy, Buy);
    OnSideSplits(resting, sells, buys, Sell);
    OnSideSplits(resting, sells, buys, Buy);
  }

  // ----- one-sided batches: the whole account

  function SizeOf(): Fill -> real {
    (f: Fill) => f.size
  }

  function WorthOf(): Fill -> real {
    (f: Fill) => Notional(f.price, f.size)
  }

  /** Positions after buying `size` of a token for `worth` in all. */
  ghost function BoughtInAll(ps: seq<A.Position>, token: Token, size: real, worth: real): seq<A.Position> {
    var i := A.IndexOf(ps, token.0, token.1);
    if size <= 0.0 then ps
    else if i == |ps| then ps + [A.Position(token.0, token.1, size, worth / size)]
    else if ps[i].quantity + size <= 0.0 then ps
    else ps[i := ps[i].(quantity := ps[i].quantity + size,
                        averageEntry := (Notional(ps[i].averageEntry, ps[i].quantity) + worth) / (ps[i].quantity + size))]
  }

  lemma Averages(worth: real, size: real, price: real, more: real)
    requires size > 0.0 && more > 0.0
    ensures Notional(worth / size, size) == worth && Notional(price, more) / more == price
    ensures (Notional(worth / size, size) + Notional(price, more)) / (size + more) == (worth + Notional(price, more)) / (size + more)
  {
  }

  /** One more purchase on top of several. */
  lemma BoughtOneMore(ps: seq<A.Position>, token: Token, size: real, worth: real, more: real, price: real)
    requires A.Sound(ps) && size >= 0.0 && more > 0.0 && (size == 0.0 ==> worth == 0.0)
    ensures A.Bought(BoughtInAll(ps, token, size, worth), token.0, token.1, more, price)
         == Some(BoughtInAll(ps, token, size + more, worth + Notional(price, more)))
  {
    hide Notional;
    var i := A.IndexOf(ps, token.0, token.1);
    if i == |ps| {
      if size == 0.0 {
        Averages(0.0, 1.0, price, more);
      } else {
        Averages(worth, size, price, more);
        var after := ps + [A.Position(token.0, token.1, size, worth / size)];
        NewPosition(ps, token, after[|ps|]);
        assert after[i := A.Increased(after[i], more, price)] == ps + [A.Increased(after[i], more, price)];
      }
    } else if size > 0.0 {
      var q := ps[i].quantity;
      Averages(Notional(ps[i].averageEntry, q) + worth, q + size, price, more);
      var after := BoughtInAll(ps, token, size, worth);
      SamePlace(ps, token, after[i]);
      var p := A.Increased(after[i], more, price);
      assert after[i := p] == ps[i := p];
      assert p.quantity == q + (size + more);
    } else {
      assert BoughtInAll(ps, token, size, worth) == ps;
    }
  }

  lemma NewPosition(ps: seq<A.Position>, token: Token, p: A.Position)
    requires A.IndexOf(ps, token.0, token.1) == |ps| && (p.market, p.outcome) == token
    ensures A.IndexOf(ps + [p], token.0, token.1) == |ps|
  {
    var after := ps + [p];
    assert after[|ps|] == p && forall j :: 0 <= j < |ps| ==> after[j] == ps[j];
  }

  lemma SamePlace(ps: seq<A.Position>, token: Token, p: A.Position)
    requires A.IndexOf(ps, token.0, token.1) < |ps| && (p.market, p.outcome) == token
    ensures var i := A.IndexOf(ps, token.0, token.1); A.IndexOf(ps[i := p], token.0, token.1) == i
  {
    var i := A.IndexOf(ps, token.0, token.1);
    var after := ps[i := p];
    assert after[i] == p && forall j :: 0 <= j < i ==> after[j] == ps[j];
  }

  /** A booked batch of purchases leaves positions that depend on its totals alone. */
  lemma {:induction false} PurchasesInAll(l: L.State, fills: seq<Fill>, token: Token)
    requires AllPlain(fills, token) && (forall f :: f in fills ==> f.side == Buy) && A.Sound(l.account.positions)
    requires RecordAll(l, fills).1.Ok?
    ensures Sum(SizeOf(), fills) >= 0.0 && (Sum(SizeOf(), fills) == 0.0 ==> fills == [])
    ensures var m := RecordAll(l, fills).0;
      && m.account.positions == BoughtInAll(l.account.positions, token, Sum(SizeOf(), fills), Sum(WorthOf(), fills))
      && m.account.realizedPnl == l.account.realizedPnl
    decreases |fills|
  {
    hide A.Sound, BoughtInAll, Notional, RecordOne, A.Bought;
    if fills == [] {
      NothingBought(l.account.positions, token);
    } else {
      var n := |fills| - 1;
      var f := fills[n];
      assert f in fills && forall g :: g in fills[..n] ==> g in fills;
      PurchasesInAll(l, fills[..n], token);
      var size, worth := Sum(SizeOf(), fills[..n]), Sum(WorthOf(), fills[..n]);
      BoughtOneMore(l.account.positions, token, size, worth, f.size, f.price);
      OnePurchase(RecordAll(l, fills[..n]).0, f);
    }
  }

  lemma NothingBought(ps: seq<A.Position>, token: Token)
    ensures BoughtInAll(ps, token, 0.0, 0.0) == ps
  {
  }

  lemma OnePurchase(l: L.State, f: Fill)
    requires f.side == Buy && RecordOne(l, f).1.Ok?
    ensures var m := RecordOne(l, f).0;
      && A.Bought(l.account.positions, f.market, f.outcome, f.size, f.price) == Some(m.account.positions)
      && m.account.realizedPnl == l.account.realizedPnl
  {
    hide A.Bought, L.AfterFill, Notional;
  }

  /** Positions after selling `size` of a token in all. */
  ghost function SoldInAll(ps: seq<A.Position>, token: Token, size: real): seq<A.Position> {
    var i := A.IndexOf(ps, token.0, token.1);
    if size <= 0.0 || i == |ps| then ps
    else if size == ps[i].quantity then ps[..i] + ps[i + 1..]
    else ps[i := ps[i].(quantity := ps[i].quantity - size)]
  }

  /** One more sale on top of several. */
  lemma SoldOneMore(ps: seq<A.Position>, token: Token, size: real, more: real)
    requires A.Sound(ps) && size >= 0.0 && more > 0.0 && size + more <= Quantity(ps, token)
    ensures A.Reduced(SoldInAll(ps, token, size), token.0, token.1, more) == SoldInAll(ps, token, size + more)
    ensures A.Held(SoldInAll(ps, token, size), token.0, token.1).averageEntry == A.Held(ps, token.0, token.1).averageEntry
  {
    hide A.Reduced;
    var i := A.IndexOf(ps, token.0, token.1);
    if size == 0.0 {
      ReducedPositions(ps, token, more);
    } else {
      var after := SoldInAll(ps, token, size);
      SamePlace(ps, token, after[i]);
      ReducedKeepsSound(ps, token, size);
      ReducedPositions(after, token, more);
    }
  }

  lemma ReducedKeepsSound(ps: seq<A.Position>, token: Token, size: real)
    requires A.Sound(ps) && 0.0 < size < Quantity(ps, token)
    ensures A.Sound(SoldInAll(ps, token, size))
  {
    var i := A.IndexOf(ps, token.0, token.1);
    var after := SoldInAll(ps, token, size);
    forall j, k | 0 <= j < k < |after| ensures !A.SameToken(after[j], after[k]) {
      assert !A.SameToken(ps[j], ps[k]);
    }
  }

  lemma OneSale(l: L.State, f: Fill)
    requires f.side == Sell && RecordOne(l, f).1.Ok?
    ensures var m := RecordOne(l, f).0;
      && f.size <= A.Held(l.account.positions, f.market, f.outcome).quantity
      && m.account.positions == A.Reduced(l.account.positions, f.market, f.outcome, f.size)
      && m.account.realizedPnl == l.account.realizedPnl +
           Notional(f.price - A.Held(l.account.positions, f.market, f.outcome).averageEntry, f.size)
  {
    hide A.Reduced, A.Held, L.AfterFill, Notional;
  }

  lemma GainSplits(price: real, average: real, more: real, worth: real, size: real)
    ensures Notional(price - average, more) + (worth - Notional(average, size))
         == worth + Notional(price, more) - Notional(average, size + more)
  {
  }

  lemma SoldQuantity(ps: seq<A.Position>, token: Token, size: real)
    requires A.Sound(ps) && 0.0 <= size <= Quantity(ps, token)
    ensures Quantity(SoldInAll(ps, token, size), token) == Quantity(ps, token) - size
  {
    if size > 0.0 {
      ReducedPositions(ps, token, size);
      ReducedQuantity(ps, token, size);
    }
  }

  /** A booked batch of sales leaves positions and a profit that depend on its totals alone. */
  lemma {:induction false} SalesInAll(l: L.State, fills: seq<Fill>, token: Token)
    requires AllPlain(fills, token) && (forall f :: f in fills ==> f.side == Sell) && A.Sound(l.account.positions)
    requires RecordAll(l, fills).1.Ok?
    ensures 0.0 <= Sum(SizeOf(), fills) <= Quantity(l.account.positions, token)
    ensures var m, average := RecordAll(l, fills).0, A.Held(l.account.positions, token.0, token.1).averageEntry;
      && m.account.positions == SoldInAll(l.account.positions, token, Sum(SizeOf(), fills))
      && m.account.realizedPnl == l.account.realizedPnl + Sum(WorthOf(), fills) - Notional(average, Sum(SizeOf(), fills))
    decreases |fills|
  {
    hide A.Sound, SoldInAll, Notional, A.Reduced, A.Held, RecordOne;
    var ps := l.account.positions;
    if fills == [] {
      NothingSold(ps, token);
    } else {
      var n := |fills| - 1;
      var f := fills[n];
      assert f in fills && forall g :: g in fills[..n] ==> g in fills;
      SalesInAll(l, fills[..n], token);
      var size, worth := Sum(SizeOf(), fills[..n]), Sum(WorthOf(), fills[..n]);
      OneSale(RecordAll(l, fills[..n]).0, f);
      SoldQuantity(ps, token, size);
      SoldOneMore(ps, token, size, f.size);
      GainSplits(f.price, A.Held(ps, token.0, token.1).averageEntry, f.size, worth, size);
    }
  }

  lemma NothingSold(ps: seq<A.Position>, token: Token)
    requires A.Sound(ps)
    ensures SoldInAll(ps, token, 0.0) == ps && Quantity(ps, token) >= 0.0
    ensures Notional(A.Held(ps, token.0, token.1).averageEntry, 0.0) == 0.0
  {
  }

  ghost predicate OneSided(fills: seq<Fill>, side: Side) {
    forall f :: f in fills ==> f.side == side
  }

  /** A one-sided batch and its permutation: both booked or neither, and then into the same account and orders. */
  lemma OneSidedBatches(m: L.State, a: seq<Fill>, b: seq<Fill>, token: Token, side: Side)
    requires multiset(a) == multiset(b) && Expected(m.orders, a) && Expected(m.orders, b)
    requires AllPlain(a, token) && AllPlain(b, token) && OneSided(a, side) && OneSided(b, side)
    requires A.Sound(m.account.positions)
    ensures RecordAll(m, a).1.Ok? <==> RecordAll(m, b).1.Ok?
    ensures RecordAll(m, a).1.Ok? ==>
      RecordAll(m, a).0.account == RecordAll(m, b).0.account && RecordAll(m, a).0.orders == RecordAll(m, b).0.orders
  {
    hide RecordAll, Expected, AllPlain, A.Sound, BoughtInAll, SoldInAll, Quantity, Notional, A.Held;
    SumPermutes(SellOf(), a, b);
    if side == Buy {
      NoSales(a);
      NoSales(b);
      HeldIsNatural(m.account.positions, token);
      EnoughIsBooked(m, a, token);
      EnoughIsBooked(m, b, token);
    } else {
      SalesBookedIff(m, a, token);
      SalesBookedIff(m, b, token);
    }
    if RecordAll(m, a).1.Ok? {
      BookedInAnyOrder(m, a, b);
      SumPermutes(SizeOf(), a, b);
      SumPermutes(WorthOf(), a, b);
      if side == Buy {
        PurchasesInAll(m, a, token);
        PurchasesInAll(m, b, token);
      } else {
        SalesInAll(m, a, token);
        SalesInAll(m, b, token);
      }
    }
  }

  lemma {:induction false} CancelsKeepAccount(l: L.State, ids: seq<string>, now: Millis)
    ensures CancelEach(l, ids, now).0.account == l.account
    decreases |ids|
  {
    if ids != [] {
      CancelsKeepAccount(l, ids[..|ids| - 1], now);
    }
  }

  /** The state after an update whose fills are booked. */
  lemma BookedUpdate(
    c: Config, s: Exec, lax: bool, token: Token, book: OrderBook, visit: seq<string>, maturing: seq<string>)
    requires Agree(c, s, lax) && BookUpdatedIn(c, s, token, book, visit, maturing).1 == Done
    ensures var t := BookUpdatedIn(c, s, token, book, visit, maturing).0;
      var m := RecordAll(AfterActivations(c, s, token, book).0, Sweeps(c, s, token, book, visit)).0;
      && t.engine == BookUpdated(c, s.engine, token, book, visit).(pending := [])
      && t.ledger.account == m.account && t.ledger.orders == m.orders - (set id | id in maturing)
  {
    hide BookUpdated, RecordAll, CancelEach, Agree, Activations, Sweeps;
    PendingParts(c, s, lax, token, book, visit);
    RecordSplit(s.ledger, Activations(c, s, token, book), Sweeps(c, s, token, book, visit));
    var recorded := RecordAll(s.ledger, BookUpdated(c, s.engine, token, book, visit).pending).0;
    CancelEachEffect(recorded, maturing, book.timestampMs);
    CancelsKeepAccount(recorded, maturing, book.timestampMs);
  }

  /**
   * When the makers that an update fills are all on one side, every visiting order ends alike: in the same engine,
   * and either all are booked, into the same orders and the same account, positions and profit included, or none is.
   */
  lemma OneSidedVisitsAgree(
    c: Config, s: Exec, lax: bool, token: Token, book: OrderBook, one: seq<string>, two: seq<string>,
    maturing: seq<string>, side: Side)
    requires PlainUpdate(c, s, lax, token, book, one) && IsVisitOf(two, s.engine, token, book)
    requires OneSided(Sweeps(c, s, token, book, one), side)
    ensures var (a, r) := BookUpdatedIn(c, s, token, book, one, maturing);
      var (b, q) := BookUpdatedIn(c, s, token, book, two, maturing);
      && (r == Done <==> q == Done)
      && (r == Done ==>
        a.engine == b.engine && a.ledger.orders == b.ledger.orders && a.ledger.account == b.ledger.account)
  {
    hide RecordAll, BookUpdated, BookUpdatedIn, Activations, Sweeps, A.Sound, IsVisitOf, Expected, AllPlain, Agree,
      AfterActivations;
    var x, y := Sweeps(c, s, token, book, one), Sweeps(c, s, token, book, two);
    PlainForAll(c, s, lax, token, book, one, two);
    SweepsPermute(c, s, token, book, one, two);
    assert OneSided(y, side) by {
      forall f | f in y ensures f.side == side {
        assert f in multiset(y);
        assert f in x;
      }
    }
    BookedInParts(c, s, lax, token, book, one, maturing);
    BookedInParts(c, s, lax, token, book, two, maturing);
    var (m, v) := AfterActivations(c, s, token, book);
    if v.Ok? {
      OneSidedBatches(m, x, y, token, side);
      if BookUpdatedIn(c, s, token, book, one, maturing).1 == Done {
        BookedUpdate(c, s, lax, token, book, one, maturing);
        BookedUpdate(c, s, lax, token, book, two, maturing);
        VisitingOrderIrrelevant(c, s.engine, token, book, one, two);
      }
    }
  }

  // ----- what two booked orders always share

  /** A booked fill moves value between cash, fees, cost and profit, and creates none. */
  lemma OneInvested(l: L.State, f: Fill)
    requires A.Sound(l.account.positions) && f.size > 0.0 && RecordOne(l, f).1.Ok?
    ensures A.Invested(RecordOne(l, f).0.account) == A.Invested(l.account)
    ensures A.Sound(RecordOne(l, f).0.account.positions)
  {
    hide A.Filled, A.Sound, A.Invested, L.AfterFill, L.FillMatches, A.Held;
    A.StepConserves(l.account, A.Trade(LedgerFillOf(f)));
  }

  lemma {:induction false} BatchInvested(l: L.State, fills: seq<Fill>)
    requires A.Sound(l.account.positions) && (forall f :: f in fills ==> f.size > 0.0) && RecordAll(l, fills).1.Ok?
    ensures var a := RecordAll(l, fills).0.account; A.Sound(a.positions) && A.Invested(a) == A.Invested(l.account)
    decreases |fills|
  {
    hide RecordOne, A.Sound, A.Invested;
    if fills != [] {
      var n := |fills| - 1;
      assert fills[n] in fills && forall f :: f in fills[..n] ==> f in fills;
      BatchInvested(l, fills[..n]);
      OneInvested(RecordAll(l, fills[..n]).0, fills[n]);
    }
  }

  lemma BatchesShare(m: L.State, a: seq<Fill>, b: seq<Fill>, token: Token)
    requires multiset(a) == multiset(b) && Expected(m.orders, a) && Expected(m.orders, b)
    requires AllPlain(a, token) && AllPlain(b, token) && A.Sound(m.account.positions)
    requires RecordAll(m, a).1.Ok? && RecordAll(m, b).1.Ok?
    ensures var x, y := RecordAll(m, a).0, RecordAll(m, b).0;
      && x.orders == y.orders && x.account.cash == y.account.cash && x.account.fees == y.account.fees
      && Quantity(x.account.positions, token) == Quantity(y.account.positions, token)
      && A.Basis(x.account.positions) - x.account.realizedPnl == A.Basis(y.account.positions) - y.account.realizedPnl
  {
    hide RecordAll, Expected, A.Sound, A.Basis, Quantity;
    BookedInAnyOrder(m, a, b);
    BatchQuantity(m, a, token);
    BatchQuantity(m, b, token);
    SumPermutes(NetOf(), a, b);
    BatchInvested(m, a);
    BatchInvested(m, b);
  }

  /**
   * Two visiting orders of one update that are both booked leave the same engine, orders, cash, fees and quantity
   * held. What one of them realizes more in profit it carries as higher cost of what it holds.
   */
  lemma BookedVisitsShare(
    c: Config, s: Exec, lax: bool, token: Token, book: OrderBook, one: seq<string>, two: seq<string>, maturing: seq<string>)
    requires PlainUpdate(c, s, lax, token, book, one) && IsVisitOf(two, s.engine, token, book)
    requires BookUpdatedIn(c, s, token, book, one, maturing).1 == Done
    requires BookUpdatedIn(c, s, token, book, two, maturing).1 == Done
    ensures var a, b := BookUpdatedIn(c, s, token, book, one, maturing).0, BookUpdatedIn(c, s, token, book, two, maturing).0;
      var x, y := a.ledger.account, b.ledger.account;
      && a.engine == b.engine && a.ledger.orders == b.ledger.orders && x.cash == y.cash && x.fees == y.fees
      && Quantity(x.positions, token) == Quantity(y.positions, token)
      && x.realizedPnl - y.realizedPnl == A.Basis(x.positions) - A.Basis(y.positions)
  {
    hide RecordAll, BookUpdated, BookUpdatedIn, Activations, Sweeps, A.Sound, A.Basis, IsVisitOf, Expected, AllPlain, Agree,
      AfterActivations, Quantity;
    PlainForAll(c, s, lax, token, book, one, two);
    SweepsPermute(c, s, token, book, one, two);
    BookedInParts(c, s, lax, token, book, one, maturing);
    BookedInParts(c, s, lax, token, book, two, maturing);
    BatchesShare(AfterActivations(c, s, token, book).0, Sweeps(c, s, token, book, one), Sweeps(c, s, token, book, two), token);
    BookedUpdate(c, s, lax, token, book, one, maturing);
    BookedUpdate(c, s, lax, token, book, two, maturing);
    VisitingOrderIrrelevant(c, s.engine, token, book, one, two);
  }
}
