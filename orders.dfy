/** The order state machine of one side of the book: each side holds at
    most one resting order, described by its lifecycle state and its price. */
module Orders {

  /** The closed set of lifecycle states of a resting order. */
  datatype State =
    | None            // no order on this side
    | Active          // working at the exchange
    | PendingCancel   // cancel sent, outcome not yet known
    | Canceled        // cancel confirmed, no trade
    | Filled          // fully executed

  /** One side's order; `price` is meaningful only while Active or PendingCancel. */
  datatype Order = Order(state: State, price: real)

  /** Both sides start with no order at price 0. */
  const NoOrder: Order := Order(None, 0.0)

  /** The two sides of the book; each has its own sign convention. */
  datatype Side = Bid | Ask

  function Opposite(side: Side): (other: Side)
    ensures other != side
  {
    match side
    case Bid => Ask
    case Ask => Bid
  }

  /** A cancel request: only a working order moves, and its price is kept. */
  function RequestCancel(o: Order): (r: Order)
    ensures r.price == o.price
    ensures o.state == Active ==> r.state == PendingCancel
    ensures o.state != Active ==> r == o
    ensures r.state != Active
  {
    if o.state == Active then o.(state := PendingCancel) else o
  }

  lemma RequestCancelIdempotent(o: Order)
    ensures RequestCancel(RequestCancel(o)) == RequestCancel(o)
  {
  }

  /** End-of-step recycle: a terminal order frees its side for re-arming. */
  function Recycle(o: Order): (r: Order)
    ensures r.price == o.price
    ensures o.state == Filled || o.state == Canceled ==> r.state == None
    ensures o.state != Filled && o.state != Canceled ==> r == o
    ensures r.state != Filled && r.state != Canceled
  {
    if o.state == Filled || o.state == Canceled then o.(state := None) else o
  }

  /** The one fatal condition: an order still waiting for its cancel outcome. */
  predicate LostCancel(o: Order)
  {
    o.state == PendingCancel
  }
}
