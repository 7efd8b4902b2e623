/** Average-entry accounting of cash, fees, realized profit and positions. */
module Accounting {
  import opened Trading

  datatype Position = Position(market: string, outcome: Outcome, quantity: real, averageEntry: real)

  datatype Account = Account(cash: real, fees: real, realizedPnl: real, positions: seq<Position>)

  datatype LedgerFill = LedgerFill(
    market: string, outcome: Outcome, side: Side, price: real, quantity: real, fee: real)

  datatype AccountingError =
    | NegativeValue
    | InsufficientPosition
    /** Averaging an empty position with an empty purchase divides by zero; the program panics. */
    | DivisionByZero

  datatype Status = Accepted | Refused(error: AccountingError)

  /** First position of an outcome, or the length of the list when there is none. */
  function IndexOf(ps: seq<Position>, market: string, outcome: Outcome): (i: nat)
    ensures i <= |ps|
    ensures i < |ps| ==> ps[i].market == market && ps[i].outcome == outcome
    ensures forall j :: 0 <= j < i ==> !(ps[j].market == market && ps[j].outcome == outcome)
  {
    if ps == [] || (ps[0].market == market && ps[0].outcome == outcome) then 0
    else
      var k := IndexOf(ps[1..], market, outcome);
      assert forall j :: 1 <= j < k + 1 ==> ps[j] == ps[1..][j - 1];
      k + 1
  }

  function Held(ps: seq<Position>, market: string, outcome: Outcome): Position {
    var i := IndexOf(ps, market, outcome);
    if i < |ps| then ps[i] else Position(market, outcome, 0.0, 0.0)
  }

  /** A position after buying more of it: quantities add, the entry price is averaged. */
  function Increased(p: Position, quantity: real, price: real): Position
    requires p.quantity + quantity != 0.0
  {
    p.(quantity := p.quantity + quantity,
       averageEntry := (Notional(p.averageEntry, p.quantity) + Notional(price, quantity)) / (p.quantity + quantity))
  }

  function Bought(ps: seq<Position>, market: string, outcome: Outcome, quantity: real, price: real): Option<seq<Position>> {
    var i := IndexOf(ps, market, outcome);
    if i == |ps| then
      Some(ps + [Position(market, outcome, quantity, price)])
    else
      if ps[i].quantity + quantity == 0.0 then None
      else Some(ps[i := Increased(ps[i], quantity, price)])
  }

  /** Positions whose quantity is not zero. */
  function NonEmpty(ps: seq<Position>): seq<Position> {
    if ps == [] then []
    else NonEmpty(ps[..|ps| - 1]) + (if ps[|ps| - 1].quantity != 0.0 then [ps[|ps| - 1]] else [])
  }

  function Reduced(ps: seq<Position>, market: string, outcome: Outcome, quantity: real): seq<Position> {
    var i := IndexOf(ps, market, outcome);
    NonEmpty(if i == |ps| then ps else ps[i := ps[i].(quantity := ps[i].quantity - quantity)])
  }

  /** One fill. Fees are booked before the holding is checked, so a refused sale still books them. */
  function Filled(a: Account, f: LedgerFill): (Account, Status) {
    if f.price < 0.0 || f.quantity < 0.0 || f.fee < 0.0 then
      (a, Refused(NegativeValue))
    else
      var charged := a.(fees := a.fees + f.fee);
      match f.side
      case Buy =>
        var paid := charged.(cash := charged.cash - (Notional(f.price, f.quantity) + f.fee));
        match Bought(a.positions, f.market, f.outcome, f.quantity, f.price) {
          case None => (paid, Refused(DivisionByZero))
          case Some(ps) => (paid.(positions := ps), Accepted)
        }
      case Sell =>
        var held := Held(a.positions, f.market, f.outcome);
        if held.quantity < f.quantity then
          (charged, Refused(InsufficientPosition))
        else
          (charged.(
             realizedPnl := a.realizedPnl + Notional(f.price - held.averageEntry, f.quantity),
             cash := a.cash + (Notional(f.price, f.quantity) - f.fee),
             positions := Reduced(a.positions, f.market, f.outcome, f.quantity)),
           Accepted)
  }

  function Settled(a: Account, market: string, outcome: Outcome, payout: real): (Account, Status) {
    if payout < 0.0 then
      (a, Refused(NegativeValue))
    else
      var held := Held(a.positions, market, outcome);
      (a.(realizedPnl := a.realizedPnl + Notional(payout - held.averageEntry, held.quantity),
          cash := a.cash + Notional(payout, held.quantity),
          positions := Reduced(a.positions, market, outcome, held.quantity)),
       Accepted)
  }

  class PortfolioLedger {
    var cash: real
    var fees: real
    var realizedPnl: real
    var positions: seq<Position>

    function Value(): Account
      reads this
    {
      Account(cash, fees, realizedPnl, positions)
    }

    constructor (initialCash: real)
      ensures Value() == Account(initialCash, 0.0, 0.0, [])
    {
      cash, fees, realizedPnl, positions := initialCash, 0.0, 0.0, [];
    }

    method ApplyFill(f: LedgerFill) returns (s: Status)
      modifies this
      ensures Value() == Filled(old(Value()), f).0 && s == Filled(old(Value()), f).1
    {
      hide Notional, Bought, Reduced, IndexOf;
      if f.price < 0.0 || f.quantity < 0.0 || f.fee < 0.0 {
        return Refused(NegativeValue);
      }
      var notional := Notional(f.price, f.quantity);
      fees := fees + f.fee;
      match f.side {
        case Buy =>
          cash := cash - (notional + f.fee);
          var ok := AddPosition(f.market, f.outcome, f.quantity, f.price);
          if !ok {
            return Refused(DivisionByZero);
          }
        case Sell =>
          var held := Held(positions, f.market, f.outcome);
          if held.quantity < f.quantity {
            return Refused(InsufficientPosition);
          }
          realizedPnl := realizedPnl + Notional(f.price - held.averageEntry, f.quantity);
          cash := cash + (notional - f.fee);
          RemovePosition(f.market, f.outcome, f.quantity);
      }
      s := Accepted;
    }

    method Settle(market: string, outcome: Outcome, payout: real) returns (s: Status)
      modifies this
      ensures Value() == Settled(old(Value()), market, outcome, payout).0
      ensures s == Settled(old(Value()), market, outcome, payout).1
    {
      hide Notional, Reduced, IndexOf;
      if payout < 0.0 {
        return Refused(NegativeValue);
      }
      var held := Held(positions, market, outcome);
      realizedPnl := realizedPnl + Notional(payout - held.averageEntry, held.quantity);
      cash := cash + Notional(payout, held.quantity);
      RemovePosition(market, outcome, held.quantity);
      s := Accepted;
    }

    method AddPosition(market: string, outcome: Outcome, quantity: real, price: real) returns (ok: bool)
      modifies this`positions
      ensures ok == Bought(old(positions), market, outcome, quantity, price).Some?
      ensures positions == if ok then Bought(old(positions), market, outcome, quantity, price).value
                           else old(positions)
    {
      var i := IndexOf(positions, market, outcome);
      if i < |positions| {
        if positions[i].quantity + quantity == 0.0 {
          return false;
        }
        positions := positions[i := Increased(positions[i], quantity, price)];
      } else {
        positions := positions + [Position(market, outcome, quantity, price)];
      }
      ok := true;
    }

    method RemovePosition(market: string, outcome: Outcome, quantity: real)
      modifies this`positions
      ensures positions == Reduced(old(positions), market, outcome, quantity)
    {
      hide NonEmpty;
      var i := IndexOf(positions, market, outcome);
      if i < |positions| {
        positions := positions[i := positions[i].(quantity := positions[i].quantity - quantity)];
      }
      RetainNonEmpty();
    }

    method RetainNonEmpty()
      modifies this`positions
      ensures positions == NonEmpty(old(positions))
    {
      var kept: seq<Position> := [];
      var j := 0;
      while j < |positions|
        invariant 0 <= j <= |positions|
        invariant kept == NonEmpty(positions[..j])
      {
        assert positions[..j + 1][..j] == positions[..j];
        if positions[j].quantity != 0.0 {
          kept := kept + [positions[j]];
        }
        j := j + 1;
      }
      assert positions[..j] == positions;
      positions := kept;
    }
  }

  // ----- what every operation keeps

  predicate SameToken(p: Position, q: Position) {
    p.market == q.market && p.outcome == q.outcome
  }

  ghost predicate Unique(ps: seq<Position>) {
    forall i, j :: 0 <= i < j < |ps| ==> !SameToken(ps[i], ps[j])
  }

  ghost predicate Positive(ps: seq<Position>) {
    forall i :: 0 <= i < |ps| ==> ps[i].quantity > 0.0
  }

  /** At most one position per market and outcome, and every one of them positive. */
  ghost predicate Sound(ps: seq<Position>) {
    Unique(ps) && Positive(ps)
  }

  /** What the open positions cost, at their average entry prices. */
  ghost function Basis(ps: seq<Position>): real {
    if ps == [] then 0.0
    else Basis(ps[..|ps| - 1]) + Notional(ps[|ps| - 1].averageEntry, ps[|ps| - 1].quantity)
  }

  /** The quantity every accepted operation conserves: the cash the account started with. */
  ghost function Invested(a: Account): real {
    a.cash + a.fees + Basis(a.positions) - a.realizedPnl
  }

  lemma {:induction false} BasisUpdate(ps: seq<Position>, i: nat, p: Position)
    requires i < |ps|
    ensures Basis(ps[i := p])
         == Basis(ps) - Notional(ps[i].averageEntry, ps[i].quantity) + Notional(p.averageEntry, p.quantity)
    decreases |ps|
  {
    hide Notional;
    var n := |ps| - 1;
    if i < n {
      BasisUpdate(ps[..n], i, p);
      assert ps[i := p][..n] == ps[..n][i := p];
    } else {
      assert ps[i := p][..n] == ps[..n];
    }
  }

  lemma {:induction false} NonEmptyBasis(ps: seq<Position>)
    ensures Basis(NonEmpty(ps)) == Basis(ps)
    decreases |ps|
  {
    hide Notional;
    if ps != [] {
      var n := |ps| - 1;
      ZeroWorth(ps[n].averageEntry);
      NonEmptyBasis(ps[..n]);
      var front := NonEmpty(ps[..n]);
      if ps[n].quantity != 0.0 {
        assert NonEmpty(ps)[..|front|] == front;
      } else {
        assert NonEmpty(ps) == front;
      }
    }
  }

  /** Dropping empty positions keeps the others, in order. */
  lemma {:induction false} NonEmptySound(ps: seq<Position>)
    requires Unique(ps) && forall i :: 0 <= i < |ps| ==> ps[i].quantity >= 0.0
    ensures Sound(NonEmpty(ps))
    ensures forall p :: p in NonEmpty(ps) ==> p in ps
    decreases |ps|
  {
    if ps != [] {
      var n := |ps| - 1;
      NonEmptySound(ps[..n]);
      var front := NonEmpty(ps[..n]);
      forall i | 0 <= i < |front| ensures !SameToken(front[i], ps[n]) {
        assert front[i] in ps[..n];
      }
    }
  }

  lemma ReducedSound(ps: seq<Position>, market: string, outcome: Outcome, quantity: real)
    requires Sound(ps) && quantity <= Held(ps, market, outcome).quantity
    ensures Sound(Reduced(ps, market, outcome, quantity))
  {
    var i := IndexOf(ps, market, outcome);
    NonEmptySound(if i == |ps| then ps else ps[i := ps[i].(quantity := ps[i].quantity - quantity)]);
  }

  lemma ReducedBasis(ps: seq<Position>, market: string, outcome: Outcome, quantity: real)
    requires quantity == 0.0 || IndexOf(ps, market, outcome) < |ps|
    ensures Basis(Reduced(ps, market, outcome, quantity))
         == Basis(ps) - Notional(Held(ps, market, outcome).averageEntry, quantity)
  {
    hide Notional, NonEmpty;
    var i := IndexOf(ps, market, outcome);
    if i == |ps| {
      NonEmptyBasis(ps);
      ZeroWorth(Held(ps, market, outcome).averageEntry);
    } else {
      var p := ps[i].(quantity := ps[i].quantity - quantity);
      NonEmptyBasis(ps[i := p]);
      BasisUpdate(ps, i, p);
      Distributes(ps[i].averageEntry, ps[i].quantity, -quantity);
    }
  }

  lemma Distributes(price: real, a: real, b: real)
    ensures Notional(price, a + b) == Notional(price, a) + Notional(price, b)
    ensures Notional(price, -b) == -Notional(price, b)
  {
  }

  lemma ZeroWorth(price: real)
    ensures Notional(price, 0.0) == 0.0
  {
  }

  lemma Spread(price: real, entry: real, quantity: real)
    ensures Notional(price - entry, quantity) == Notional(price, quantity) - Notional(entry, quantity)
  {
  }

  lemma AveragedCost(p: Position, quantity: real, price: real)
    requires p.quantity + quantity != 0.0
    ensures var q := Increased(p, quantity, price);
      Notional(q.averageEntry, q.quantity) == Notional(p.averageEntry, p.quantity) + Notional(price, quantity)
  {
  }

  lemma BoughtKeeps(ps: seq<Position>, market: string, outcome: Outcome, quantity: real, price: real)
    requires Sound(ps) && quantity > 0.0
    ensures Bought(ps, market, outcome, quantity, price).Some?
    ensures Sound(Bought(ps, market, outcome, quantity, price).value)
    ensures Basis(Bought(ps, market, outcome, quantity, price).value) == Basis(ps) + Notional(price, quantity)
  {
    hide Notional;
    var i := IndexOf(ps, market, outcome);
    if i == |ps| {
      assert (ps + [Position(market, outcome, quantity, price)])[..|ps|] == ps;
    } else {
      BasisUpdate(ps, i, Increased(ps[i], quantity, price));
      AveragedCost(ps[i], quantity, price);
    }
  }

  /** One call on the account. */
  datatype Op =
    | Trade(fill: LedgerFill)
    | Settle(market: string, outcome: Outcome, payout: real)

  function Apply(a: Account, op: Op): (Account, Status) {
    match op
    case Trade(fill) => Filled(a, fill)
    case Settle(market, outcome, payout) => Settled(a, market, outcome, payout)
  }

  /** A buy of nothing is the one accepted operation that leaves an empty position behind. */
  predicate BuysNothing(op: Op) {
    op.Trade? && op.fill.side == Buy && op.fill.quantity == 0.0
  }

  /** The sale exceeds the holding and carries a fee: the guard of the only branch that leaks. */
  predicate OversellWithFee(a: Account, op: Op) {
    op.Trade? && op.fill.side == Sell && op.fill.price >= 0.0 && op.fill.quantity >= 0.0 && op.fill.fee > 0.0 &&
    Held(a.positions, op.fill.market, op.fill.outcome).quantity < op.fill.quantity
  }

  ghost function Leak(a: Account, op: Op): real {
    if OversellWithFee(a, op) then op.fill.fee else 0.0
  }

  /** One step: soundness is kept, and the invested total moves by exactly the leaked fee. */
  lemma StepConserves(a: Account, op: Op)
    requires Sound(a.positions) && !BuysNothing(op)
    ensures var (b, status) := Apply(a, op);
      Sound(b.positions) && Invested(b) == Invested(a) + Leak(a, op) &&
      (OversellWithFee(a, op) ==> status == Refused(InsufficientPosition))
  {
    hide Notional, Sound, Basis, Reduced, Bought;
    match op {
      case Trade(f) =>
        if f.price >= 0.0 && f.quantity >= 0.0 && f.fee >= 0.0 {
          var held := Held(a.positions, f.market, f.outcome);
          if f.side == Buy {
            BoughtKeeps(a.positions, f.market, f.outcome, f.quantity, f.price);
          } else if held.quantity >= f.quantity {
            ReducedSound(a.positions, f.market, f.outcome, f.quantity);
            ReducedBasis(a.positions, f.market, f.outcome, f.quantity);
            Spread(f.price, held.averageEntry, f.quantity);
          }
        }
      case Settle(market, outcome, payout) =>
        var held := Held(a.positions, market, outcome);
        ReducedSound(a.positions, market, outcome, held.quantity);
        ReducedBasis(a.positions, market, outcome, held.quantity);
        Spread(payout, held.averageEntry, held.quantity);
    }
  }

  /** Nothing but the fee total itself depends on the fee total. */
  lemma FeesAreWriteOnly(a: Account, op: Op, less: real)
    ensures var (b, status) := Apply(a, op);
      Apply(a.(fees := a.fees - less), op) == (b.(fees := b.fees - less), status)
  {
    hide Notional, Bought, Reduced, Held;
  }

  function Run(a: Account, ops: seq<Op>): Account {
    if ops == [] then a else Apply(Run(a, ops[..|ops| - 1]), ops[|ops| - 1]).0
  }

  ghost function Leaks(a: Account, ops: seq<Op>): real {
    if ops == [] then 0.0
    else Leaks(a, ops[..|ops| - 1]) + Leak(Run(a, ops[..|ops| - 1]), ops[|ops| - 1])
  }

  lemma {:induction false} RunConserves(a: Account, ops: seq<Op>)
    requires Sound(a.positions) && forall i :: 0 <= i < |ops| ==> !BuysNothing(ops[i])
    ensures Sound(Run(a, ops).positions)
    ensures Invested(Run(a, ops)) == Invested(a) + Leaks(a, ops)
    decreases |ops|
  {
    hide Apply, Sound, Invested, Leak;
    if ops != [] {
      var n := |ops| - 1;
      RunConserves(a, ops[..n]);
      StepConserves(Run(a, ops[..n]), ops[n]);
    }
  }

  lemma LeakSign(a: Account, op: Op)
    ensures Leak(a, op) >= 0.0 && (Leak(a, op) == 0.0 <==> !OversellWithFee(a, op))
  {
  }

  lemma {:induction false} LeaksExactly(a: Account, ops: seq<Op>)
    ensures Leaks(a, ops) >= 0.0
    ensures Leaks(a, ops) == 0.0 <==> forall i :: 0 <= i < |ops| ==> !OversellWithFee(Run(a, ops[..i]), ops[i])
    decreases |ops|
  {
    hide Leak, OversellWithFee, Run;
    if ops != [] {
      var n := |ops| - 1;
      LeaksExactly(a, ops[..n]);
      LeakSign(Run(a, ops[..n]), ops[n]);
      assert forall i :: 0 <= i < n ==> ops[..n][..i] == ops[..i];
    }
  }

  /**
   * Over every run, accepted or refused, cash + fees + basis - realized profit is the initial cash
   * plus the fees of refused oversells, and it is the initial cash exactly when no sale in the run
   * exceeded its holding while carrying a fee.
   */
  lemma ValueConservation(initialCash: real, ops: seq<Op>)
    requires forall i :: 0 <= i < |ops| ==> !BuysNothing(ops[i])
    ensures var start := Account(initialCash, 0.0, 0.0, []);
      Sound(Run(start, ops).positions) &&
      Invested(Run(start, ops)) == initialCash + Leaks(start, ops) &&
      (Invested(Run(start, ops)) == initialCash <==>
       forall i :: 0 <= i < |ops| ==> !OversellWithFee(Run(start, ops[..i]), ops[i]))
  {
    hide Run, Leaks, OversellWithFee;
    var start := Account(initialCash, 0.0, 0.0, []);
    RunConserves(start, ops);
    LeaksExactly(start, ops);
  }

  /** A refused sale with a fee: the fee is booked, the sale is not. */
  lemma RefusedSaleStillCharges()
    ensures var start := Account(10.0, 0.0, 0.0, []);
      var sale := Trade(LedgerFill("m", Up, Sell, 0.5, 1.0, 0.25));
      Apply(start, sale) == (start.(fees := 0.25), Refused(InsufficientPosition))
  {
  }

  // ----- marks

  datatype Mark = Mark(market: string, outcome: Outcome, price: real)

  function MarkFor(marks: seq<Mark>, p: Position): Option<real> {
    if marks == [] then None
    else if marks[0].market == p.market && marks[0].outcome == p.outcome then Some(marks[0].price)
    else MarkFor(marks[1..], p)
  }

  predicate MarksPosition(m: Mark, p: Position) {
    m.market == p.market && m.outcome == p.outcome
  }

  /** A position is valued at the first mark of its own market and outcome, and at none without one. */
  lemma {:induction false} MarkForIff(marks: seq<Mark>, p: Position)
    ensures match MarkFor(marks, p)
      case None => forall i :: 0 <= i < |marks| ==> !MarksPosition(marks[i], p)
      case Some(price) => exists i :: FirstMark(marks, p, i) && marks[i].price == price
    decreases |marks|
  {
    if marks != [] {
      if MarksPosition(marks[0], p) {
        assert FirstMark(marks, p, 0);
      } else {
        MarkForIff(marks[1..], p);
        assert forall i :: 1 <= i < |marks| ==> marks[i] == marks[1..][i - 1];
        if MarkFor(marks, p).Some? {
          var i :| FirstMark(marks[1..], p, i) && marks[1..][i].price == MarkFor(marks, p).value;
          assert FirstMark(marks, p, i + 1);
        }
      }
    }
  }

  ghost predicate FirstMark(marks: seq<Mark>, p: Position, i: int) {
    0 <= i < |marks| && MarksPosition(marks[i], p) && forall j :: 0 <= j < i ==> !MarksPosition(marks[j], p)
  }

  function Unrealized(ps: seq<Position>, marks: seq<Mark>): real {
    if ps == [] then 0.0
    else
      var p := ps[|ps| - 1];
      Unrealized(ps[..|ps| - 1], marks) +
      match MarkFor(marks, p) case None => 0.0 case Some(price) => Notional(price - p.averageEntry, p.quantity)
  }

  function Marked(ps: seq<Position>, marks: seq<Mark>): real {
    if ps == [] then 0.0
    else
      var p := ps[|ps| - 1];
      Marked(ps[..|ps| - 1], marks) +
      match MarkFor(marks, p) case None => 0.0 case Some(price) => Notional(price, p.quantity)
  }

  /** Positions are valued one by one: at their own mark, or not at all. */
  lemma {:induction false} ValuedOneByOne(left: seq<Position>, p: Position, right: seq<Position>, marks: seq<Mark>)
    ensures Marked(left + [p] + right, marks) == Marked(left + right, marks) +
      (match MarkFor(marks, p) case None => 0.0 case Some(price) => price * p.quantity)
    ensures Unrealized(left + [p] + right, marks) == Unrealized(left + right, marks) +
      (match MarkFor(marks, p) case None => 0.0 case Some(price) => (price - p.averageEntry) * p.quantity)
    decreases |right|
  {
    hide MarkFor;
    var all := left + [p] + right;
    if right == [] {
      assert left + right == left && all[..|left|] == left;
    } else {
      var n := |right| - 1;
      assert all[..|all| - 1] == left + [p] + right[..n];
      assert (left + right)[..|left + right| - 1] == left + right[..n];
      ValuedOneByOne(left, p, right[..n], marks);
    }
  }

  function Equity(a: Account, marks: seq<Mark>): real {
    a.cash + Marked(a.positions, marks)
  }

  /** Cost of the positions no mark covers. */
  ghost function UnmarkedBasis(ps: seq<Position>, marks: seq<Mark>): real {
    if ps == [] then 0.0
    else
      var p := ps[|ps| - 1];
      UnmarkedBasis(ps[..|ps| - 1], marks) +
      if MarkFor(marks, p).None? then Notional(p.averageEntry, p.quantity) else 0.0
  }

  lemma {:induction false} MarkedMinusBasis(ps: seq<Position>, marks: seq<Mark>)
    ensures Marked(ps, marks) + UnmarkedBasis(ps, marks) == Basis(ps) + Unrealized(ps, marks)
    ensures (forall i :: 0 <= i < |ps| ==> MarkFor(marks, ps[i]).Some?) ==> UnmarkedBasis(ps, marks) == 0.0
    decreases |ps|
  {
    hide Notional;
    if ps != [] {
      var n := |ps| - 1;
      MarkedMinusBasis(ps[..n], marks);
      match MarkFor(marks, ps[n]) {
        case None =>
        case Some(price) => Spread(price, ps[n].averageEntry, ps[n].quantity);
      }
    }
  }

  /**
   * Marked equity after any run is initial cash + realized + unrealized - fees, less the cost of
   * unmarked positions, plus the fees of refused oversells.
   */
  lemma EquityIdentity(initialCash: real, ops: seq<Op>, marks: seq<Mark>)
    requires forall i :: 0 <= i < |ops| ==> !BuysNothing(ops[i])
    ensures var start := Account(initialCash, 0.0, 0.0, []);
      var a := Run(start, ops);
      Equity(a, marks) == initialCash + a.realizedPnl + Unrealized(a.positions, marks) - a.fees
                          - UnmarkedBasis(a.positions, marks) + Leaks(start, ops) &&
      ((forall i :: 0 <= i < |a.positions| ==> MarkFor(marks, a.positions[i]).Some?)
        ==> UnmarkedBasis(a.positions, marks) == 0.0) &&
      (Leaks(start, ops) == 0.0 <==> forall i :: 0 <= i < |ops| ==> !OversellWithFee(Run(start, ops[..i]), ops[i]))
  {
    LeaksExactly(Account(initialCash, 0.0, 0.0, []), ops);
    ValueConservation(initialCash, ops);
    MarkedMinusBasis(Run(Account(initialCash, 0.0, 0.0, []), ops).positions, marks);
  }
}
