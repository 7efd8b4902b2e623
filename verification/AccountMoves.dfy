/** How single fills and settlements move cash, fees, profit and positions. */
module AccountMoves {
  import opened Trading
  import opened Accounting

  predicate OfToken(p: Position, market: string, outcome: Outcome) {
    p.market == market && p.outcome == outcome
  }

  /** Some position of a token holds this quantity. */
  ghost predicate Holds(ps: seq<Position>, market: string, outcome: Outcome, quantity: real) {
    exists p :: p in ps && OfToken(p, market, outcome) && p.quantity == quantity
  }

  /** Every position of a token has this cost. */
  ghost predicate Costs(ps: seq<Position>, market: string, outcome: Outcome, cost: real) {
    forall p :: p in ps && OfToken(p, market, outcome) ==> p.averageEntry * p.quantity == cost
  }

  /** Positions of all other tokens are the same on both sides. */
  ghost predicate OthersStay(before: seq<Position>, after: seq<Position>, market: string, outcome: Outcome) {
    forall p :: !OfToken(p, market, outcome) ==> (p in before <==> p in after)
  }

  /** Of this position's token exactly this position is left, and nothing when it is empty. */
  ghost predicate OnlyRest(ps: seq<Position>, rest: Position) {
    (forall p :: p in ps && SameToken(p, rest) ==> p == rest) && (rest in ps <==> rest.quantity != 0.0)
  }

  lemma {:induction false} NonEmptyMembers(ps: seq<Position>)
    ensures forall p :: p in NonEmpty(ps) <==> p in ps && p.quantity != 0.0
    decreases |ps|
  {
    if ps != [] {
      NonEmptyMembers(ps[..|ps| - 1]);
    }
  }

  /** A sound list holds one position of a token at most, and looking the token up finds it. */
  lemma LookUp(ps: seq<Position>, market: string, outcome: Outcome)
    requires Unique(ps)
    ensures forall p :: p in ps && OfToken(p, market, outcome) ==> p == Held(ps, market, outcome)
    ensures Held(ps, market, outcome) in ps || Held(ps, market, outcome).quantity == 0.0
    ensures OfToken(Held(ps, market, outcome), market, outcome)
  {
    var i := IndexOf(ps, market, outcome);
    forall p | p in ps && OfToken(p, market, outcome) ensures i < |ps| && p == ps[i] {
      var j :| 0 <= j < |ps| && ps[j] == p;
      assert i <= j;
      assert SameToken(ps[i], ps[j]);
    }
    if i < |ps| {
      assert ps[i] in ps;
    }
  }

  /** Replacing the position of a token leaves the others. */
  lemma ReplacedMembers(ps: seq<Position>, i: nat, q: Position)
    requires Unique(ps) && i < |ps| && SameToken(ps[i], q)
    ensures forall p :: p in ps[i := q] <==> p == q || (p in ps && !SameToken(p, q))
  {
    forall p | p in ps && !SameToken(p, q) ensures p in ps[i := q] {
      var j :| 0 <= j < |ps| && ps[j] == p;
      assert ps[i := q][j] == p;
    }
    forall p | p in ps[i := q] && p != q ensures p in ps && !SameToken(p, q) {
      var j :| 0 <= j < |ps| && ps[i := q][j] == p;
      assert j < i ==> !SameToken(ps[j], ps[i]);
      assert i < j ==> !SameToken(ps[i], ps[j]);
    }
    assert ps[i := q][i] == q;
  }

  /** Buying adds the quantity and the price paid to what the token's position holds and cost. */
  lemma BoughtMoves(ps: seq<Position>, market: string, outcome: Outcome, quantity: real, price: real)
    requires Sound(ps) && quantity > 0.0
    ensures var held := Held(ps, market, outcome);
      var r := Bought(ps, market, outcome, quantity, price);
      && r.Some? && OthersStay(ps, r.value, market, outcome)
      && Holds(r.value, market, outcome, held.quantity + quantity)
      && Costs(r.value, market, outcome, held.averageEntry * held.quantity + price * quantity)
  {
    hide Increased;
    var i := IndexOf(ps, market, outcome);
    var r := Bought(ps, market, outcome, quantity, price);
    if i < |ps| {
      var q := Increased(ps[i], quantity, price);
      AveragedCost(ps[i], quantity, price);
      IncreasedToken(ps[i], quantity, price);
      ReplacedMembers(ps, i, q);
      var after := ps[i := q];
      assert after[i] == q;
      assert r.Some? && r.value == after;
    } else {
      var q := Position(market, outcome, quantity, price);
      assert q in ps + [q];
      assert forall p :: p in ps ==> !OfToken(p, market, outcome);
    }
  }

  lemma IncreasedToken(p: Position, quantity: real, price: real)
    requires p.quantity + quantity != 0.0
    ensures SameToken(p, Increased(p, quantity, price)) && Increased(p, quantity, price).quantity == p.quantity + quantity
  {
  }

  /** Selling takes the quantity off the token's position at its average price; an emptied position is gone. */
  lemma ReducedMoves(ps: seq<Position>, market: string, outcome: Outcome, quantity: real)
    requires Sound(ps) && 0.0 <= quantity <= Held(ps, market, outcome).quantity
    ensures var held := Held(ps, market, outcome);
      var r := Reduced(ps, market, outcome, quantity);
      && OthersStay(ps, r, market, outcome)
      && OnlyRest(r, held.(quantity := held.quantity - quantity))
  {
    hide NonEmpty;
    var i := IndexOf(ps, market, outcome);
    var r := Reduced(ps, market, outcome, quantity);
    assert forall p :: p in ps ==> p.quantity > 0.0;
    if i < |ps| {
      var q := ps[i].(quantity := ps[i].quantity - quantity);
      var after := ps[i := q];
      ReplacedMembers(ps, i, q);
      NonEmptyMembers(after);
      assert r == NonEmpty(after) && SameToken(ps[i], q);
      assert forall p :: p in r <==> p in after && p.quantity != 0.0;
    } else {
      NonEmptyMembers(ps);
    }
  }

  /**
   * An accepted purchase costs its price and its fee; the token's position grows by the quantity and
   * its cost by the price paid.
   */
  lemma PurchaseMoves(a: Account, f: LedgerFill)
    requires Sound(a.positions) && f.side == Buy && f.price >= 0.0 && f.fee >= 0.0 && f.quantity > 0.0
    ensures var held := Held(a.positions, f.market, f.outcome);
      var (b, status) := Filled(a, f);
      && status == Accepted && b.cash == a.cash - f.price * f.quantity - f.fee && b.fees == a.fees + f.fee
      && b.realizedPnl == a.realizedPnl && OthersStay(a.positions, b.positions, f.market, f.outcome)
      && Holds(b.positions, f.market, f.outcome, held.quantity + f.quantity)
      && Costs(b.positions, f.market, f.outcome, held.averageEntry * held.quantity + f.price * f.quantity)
  {
    hide Bought, Sound, Holds, Costs, OthersStay, Held;
    BoughtMoves(a.positions, f.market, f.outcome, f.quantity, f.price);
  }

  /**
   * A sale is accepted if and only if the holding covers it. It earns its price less the fee, realizes price less
   * average cost, and leaves the rest of the position at the same average price.
   */
  lemma SaleMoves(a: Account, f: LedgerFill)
    requires Sound(a.positions) && f.side == Sell && f.price >= 0.0 && f.fee >= 0.0 && f.quantity >= 0.0
    ensures var held := Held(a.positions, f.market, f.outcome);
      var (b, status) := Filled(a, f);
      && (status == Accepted <==> f.quantity <= held.quantity)
      && (status == Accepted ==>
        && b.cash == a.cash + f.price * f.quantity - f.fee && b.fees == a.fees + f.fee
        && b.realizedPnl == a.realizedPnl + f.price * f.quantity - held.averageEntry * f.quantity
        && OthersStay(a.positions, b.positions, f.market, f.outcome)
        && OnlyRest(b.positions, held.(quantity := held.quantity - f.quantity)))
  {
    hide Reduced, Sound, OnlyRest, OthersStay, Held;
    var held := Held(a.positions, f.market, f.outcome);
    if f.quantity <= held.quantity {
      ReducedMoves(a.positions, f.market, f.outcome, f.quantity);
      Spread(f.price, held.averageEntry, f.quantity);
    }
  }

  /**
   * A settlement pays the payout on everything held of the token, realizes that less its cost, and removes exactly
   * this position; fees and all other positions stay.
   */
  lemma SettlementMoves(a: Account, market: string, outcome: Outcome, payout: real)
    requires Sound(a.positions)
    ensures var held := Held(a.positions, market, outcome);
      var (b, status) := Settled(a, market, outcome, payout);
      && (status == Accepted <==> payout >= 0.0) && (status != Accepted ==> b == a)
      && (status == Accepted ==>
        && b.cash == a.cash + payout * held.quantity && b.fees == a.fees
        && b.realizedPnl == a.realizedPnl + payout * held.quantity - held.averageEntry * held.quantity
        && OthersStay(a.positions, b.positions, market, outcome)
        && (forall p :: p in b.positions ==> !OfToken(p, market, outcome)))
  {
    hide Reduced, Sound, OthersStay;
    var held := Held(a.positions, market, outcome);
    if payout >= 0.0 {
      HeldIsNatural(a.positions, market, outcome);
      ReducedMoves(a.positions, market, outcome, held.quantity);
      Spread(payout, held.averageEntry, held.quantity);
    }
  }

  lemma HeldIsNatural(ps: seq<Position>, market: string, outcome: Outcome)
    requires Sound(ps)
    ensures Held(ps, market, outcome).quantity >= 0.0
  {
  }
}
