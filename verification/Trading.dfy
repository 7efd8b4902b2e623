/** Values shared by the simulator, the accounting ledger and the paper executor. */
module Trading {

  datatype Option<+T> = None | Some(value: T)

  datatype Side = Buy | Sell
  datatype Outcome = Up | Down
  datatype Liquidity = Maker | Taker

  const I64_MIN: int := -0x8000_0000_0000_0000
  const I64_MAX: int := 0x7fff_ffff_ffff_ffff

  /** Millisecond timestamps. */
  type Millis = t: int | I64_MIN <= t <= I64_MAX

  function SaturatingAdd(a: Millis, b: Millis): Millis {
    if a + b > I64_MAX then I64_MAX else if a + b < I64_MIN then I64_MIN else a + b
  }

  function Later(a: Millis, b: Millis): Millis {
    if a < b then b else a
  }

  function MinReal(a: real, b: real): real {
    if a <= b then a else b
  }

  function MaxReal(a: real, b: real): real {
    if a >= b then a else b
  }

  /** What a quantity is worth at a price. */
  function Notional(price: real, quantity: real): real {
    price * quantity
  }

  datatype TimeInForce = Gtc | Gtd(expireAtMs: Millis)

  datatype PlaceOrder = PlaceOrder(
    market: string,
    outcome: Outcome,
    side: Side,
    price: real,
    qty: real,
    postOnly: bool,
    tif: TimeInForce)

  /** An order stops being fillable at its expiry instant, not one later. */
  predicate Expired(order: PlaceOrder, now: Millis) {
    match order.tif
    case Gtc => false
    case Gtd(expireAt) => expireAt <= now
  }

  datatype Level = Level(price: real, qty: real)

  /** One side each, best level first. */
  datatype OrderBook = OrderBook(bids: seq<Level>, asks: seq<Level>, timestampMs: Millis)

  datatype Fill = Fill(
    orderId: string,
    market: string,
    outcome: Outcome,
    price: real,
    size: real,
    side: Side,
    fee: real,
    liquidity: Liquidity,
    timestampMs: Millis)

  /** A price no worse for the owner of an order than the order's limit. */
  predicate NoWorse(side: Side, price: real, limit: real) {
    match side
    case Buy => price <= limit
    case Sell => price >= limit
  }
}
