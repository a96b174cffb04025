/** The inventory-skewed quoting policy with its hard inventory cutoffs. */
module Quoting {
  import opened Orders
  import opened Accounting

  /** The agent's fixed policy parameters. */
  datatype Params = Params(baseSpread: real, inventoryLimit: real, gamma: real)

  /** The parameters a market maker starts with. */
  const DefaultParams: Params := Params(0.2, 10000.0, 0.01)

  /** How far from the mid a quote is put when the skew would cross it. */
  const CrossGuard: real := 0.01

  /** A value snapshot of the agent: its ledger and its two orders. */
  datatype AgentState = AgentState(ledger: Ledger, bid: Order, ask: Order)
  {
    function OrderOn(side: Side): Order
    {
      match side
      case Bid => bid
      case Ask => ask
    }

    function WithOrder(side: Side, o: Order): (r: AgentState)
      ensures r.OrderOn(side) == o
      ensures r.OrderOn(Opposite(side)) == OrderOn(Opposite(side))
      ensures r.ledger == ledger
    {
      match side
      case Bid => this.(bid := o)
      case Ask => this.(ask := o)
    }
  }

  const InitialAgent: AgentState := AgentState(EmptyLedger, NoOrder, NoOrder)

  /** The bid the policy wants: the mid, lowered by the inventory penalty and
      half the spread, and pulled back below the mid if that would cross it. */
  function DesiredBid(p: Params, inventory: real, mid: real): (b: real)
    ensures b <= mid
    ensures p.gamma * inventory + p.baseSpread / 2.0 >= 0.0 ==>
              b == mid - p.gamma * inventory - p.baseSpread / 2.0
    ensures p.gamma * inventory + p.baseSpread / 2.0 < 0.0 ==> b == mid - CrossGuard
  {
    var effectiveMid := mid - p.gamma * inventory;
    var desired := effectiveMid - p.baseSpread / 2.0;
    if desired > mid then mid - CrossGuard else desired
  }

  /** The ask the policy wants, symmetric to DesiredBid. */
  function DesiredAsk(p: Params, inventory: real, mid: real): (a: real)
    ensures a >= mid
    ensures p.baseSpread / 2.0 - p.gamma * inventory >= 0.0 ==>
              a == mid - p.gamma * inventory + p.baseSpread / 2.0
    ensures p.baseSpread / 2.0 - p.gamma * inventory < 0.0 ==> a == mid + CrossGuard
  {
    var effectiveMid := mid - p.gamma * inventory;
    var desired := effectiveMid + p.baseSpread / 2.0;
    if desired < mid then mid + CrossGuard else desired
  }

  /** One side's policy decision. Past the cutoff a working order is sent a
      cancel and nothing is armed; below it an idle or terminal order is armed
      at the desired price and a working or cancel-pending one is left alone. */
  function QuoteSide(o: Order, cutoff: bool, desired: real): (r: Order)
    ensures cutoff ==> r.state != Active
    ensures cutoff && o.state == Active ==> r == Order(PendingCancel, o.price)
    ensures cutoff && o.state != Active ==> r == o
    ensures !cutoff && (o.state == None || o.state == Canceled || o.state == Filled) ==>
              r == Order(Active, desired)
    ensures !cutoff && (o.state == Active || o.state == PendingCancel) ==> r == o
  {
    if cutoff then RequestCancel(o)
    else if o.state == None || o.state == Canceled || o.state == Filled then Order(Active, desired)
    else o
  }

  /** The whole quoting call: each side is decided from its own order and the
      inventory alone, the ledger is untouched, and a freshly armed quote sits
      on its own side of the mid. */
  function Quote(a: AgentState, p: Params, mid: real): (r: AgentState)
    ensures r.ledger == a.ledger
    ensures r.bid == QuoteSide(a.bid, a.ledger.inventory >= p.inventoryLimit,
                               DesiredBid(p, a.ledger.inventory, mid))
    ensures r.ask == QuoteSide(a.ask, a.ledger.inventory <= -p.inventoryLimit,
                               DesiredAsk(p, a.ledger.inventory, mid))
    ensures r.bid.state == Active && a.bid.state != Active ==> r.bid.price <= mid
    ensures r.ask.state == Active && a.ask.state != Active ==> r.ask.price >= mid
  {
    var inventory := a.ledger.inventory;
    AgentState(a.ledger,
               QuoteSide(a.bid, inventory >= p.inventoryLimit, DesiredBid(p, inventory, mid)),
               QuoteSide(a.ask, inventory <= -p.inventoryLimit, DesiredAsk(p, inventory, mid)))
  }

  /** Flat inventory, mid 100 and a 0.2 spread: bid 99.9 and ask 100.1, both armed from idle. */
  lemma QuoteFlatAtHundred()
    ensures Quote(InitialAgent, DefaultParams, 100.0).bid == Order(Active, 99.9)
    ensures Quote(InitialAgent, DefaultParams, 100.0).ask == Order(Active, 100.1)
  {
  }

  /** The clamp fires only when the skewed quote strictly crosses the mid, so a
      quote can sit exactly on the mid: short 10 shares with the default
      parameters, the desired bid equals the mid. */
  lemma BidCanTouchMid()
    ensures DesiredBid(DefaultParams, -10.0, 100.0) == 100.0
    ensures DesiredAsk(DefaultParams, 10.0, 100.0) == 100.0
  {
  }

  /** At the limit a working bid at 99.9 is sent a cancel at an unchanged price,
      while the ask is still armed. */
  lemma QuoteAtLimitCancelsBid(cash: real)
    ensures var a := AgentState(Ledger(10000.0, cash), Order(Active, 99.9), NoOrder);
            var r := Quote(a, DefaultParams, 100.0);
            r.bid == Order(PendingCancel, 99.9) && r.ask.state == Active
  {
  }
}
