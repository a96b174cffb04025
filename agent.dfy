/** The market maker object: its ledger, its policy parameters and its two
    orders, updated in place by quoting, cancel requests, fills and cancel
    resolution. */
module Agent {
  import opened Orders
  import opened Accounting
  import opened Market
  import Quoting
  import Execution

  class MarketMaker {
    var inventory: real   // shares held
    var cash: real        // cash flow from fills
    const baseSpread: real
    const inventoryLimit: real
    const gamma: real
    var bidOrder: Order
    var askOrder: Order

    /** A flat agent with the default parameters and no orders. */
    constructor ()
      ensures State() == Quoting.InitialAgent
      ensures Params() == Quoting.DefaultParams
    {
      inventory, cash := 0.0, 0.0;
      baseSpread, inventoryLimit, gamma := 0.2, 10000.0, 0.01;
      bidOrder, askOrder := NoOrder, NoOrder;
    }

    function Params(): Quoting.Params
      reads this
    {
      Quoting.Params(baseSpread, inventoryLimit, gamma)
    }

    function Ledger(): Accounting.Ledger
      reads this
    {
      Accounting.Ledger(inventory, cash)
    }

    /** The agent's current value, as the specification functions see it. */
    function State(): Quoting.AgentState
      reads this
    {
      Quoting.AgentState(Ledger(), bidOrder, askOrder)
    }

    function OrderOn(side: Side): Order
      reads this
    {
      State().OrderOn(side)
    }

    /** Computes the desired quotes and arms or cancels each side. */
    method Quote(mkt: MarketState)
      modifies this
      ensures State() == Quoting.Quote(old(State()), Params(), mkt.midPrice)
    {
      var desiredBid := Quoting.DesiredBid(Params(), inventory, mkt.midPrice);
      var desiredAsk := Quoting.DesiredAsk(Params(), inventory, mkt.midPrice);

      if inventory >= inventoryLimit {
        if bidOrder.state == Active {
          RequestCancel(Bid);
        }
      } else {
        if bidOrder.state == None || bidOrder.state == Canceled || bidOrder.state == Filled {
          bidOrder := Order(Active, desiredBid);
        }
      }

      if inventory <= -inventoryLimit {
        if askOrder.state == Active {
          RequestCancel(Ask);
        }
      } else {
        if askOrder.state == None || askOrder.state == Canceled || askOrder.state == Filled {
          askOrder := Order(Active, desiredAsk);
        }
      }
    }

    /** Sends a cancel for the order on `side` if it is working. */
    method RequestCancel(side: Side)
      modifies this
      ensures OrderOn(side) == Orders.RequestCancel(old(OrderOn(side)))
      ensures OrderOn(Opposite(side)) == old(OrderOn(Opposite(side)))
      ensures Ledger() == old(Ledger())
    {
      match side
      case Bid =>
        if bidOrder.state == Active {
          bidOrder := bidOrder.(state := PendingCancel);
        }
      case Ask =>
        if askOrder.state == Active {
          askOrder := askOrder.(state := PendingCancel);
        }
    }

    /** Books a fill of `quantity` shares (negative for a sale) at `price`. */
    method HandleFill(price: real, quantity: int)
      modifies this
      ensures inventory == old(inventory) + quantity as real
      ensures cash == old(cash) - price * quantity as real
      ensures bidOrder == old(bidOrder) && askOrder == old(askOrder)
    {
      inventory := inventory + quantity as real;
      cash := cash - price * quantity as real;
    }
  }

  /** Settles the order on `side` if it has a cancel in flight: filled before
      the cancel on a true draw, canceled otherwise. */
  method ResolvePendingCancel(mm: MarketMaker, side: Side, fillBeforeCancel: bool,
                              qtyPerFill: int)
    modifies mm
    ensures var r := Execution.Resolve(old(mm.OrderOn(side)), old(mm.Ledger()), side,
                                       fillBeforeCancel, qtyPerFill);
            mm.OrderOn(side) == r.order && mm.Ledger() == r.ledger
    ensures mm.OrderOn(Opposite(side)) == old(mm.OrderOn(Opposite(side)))
  {
    var o := mm.OrderOn(side);
    if o.state != PendingCancel {
      return;
    }
    if fillBeforeCancel {
      mm.HandleFill(o.price, SignedQty(side, qtyPerFill));
      o := o.(state := Filled);
    } else {
      o := o.(state := Canceled);
    }
    if side == Bid {
      mm.bidOrder := o;
    } else {
      mm.askOrder := o;
    }
  }

  /** The lost-cancel check: the source aborts the run when an order is still
      cancel-pending here, so every caller must prove that it is not. */
  method AssertNoLostCancels(o: Order)
    requires !LostCancel(o)
  {
  }
}
