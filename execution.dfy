/** The fill engine for working orders and the resolution of the race
    between an in-flight cancel and a fill. */
module Execution {
  import opened Orders
  import opened Accounting

  /** How far an order sits behind the mid on its own side (negative when crossed). */
  function Offset(o: Order, mid: real, side: Side): real
  {
    match side
    case Bid => mid - o.price
    case Ask => o.price - mid
  }

  /** The distance the fill intensity is computed from: the offset, floored at zero. */
  function FillDistance(o: Order, mid: real, side: Side): (d: real)
    ensures d >= 0.0
    ensures d >= Offset(o, mid, side)
    ensures d == Offset(o, mid, side) || d == 0.0
  {
    var dist := Offset(o, mid, side);
    if dist < 0.0 then 0.0 else dist
  }

  /** Whether a working order trades this step, given the step's uniform draw
      `u` and the fill intensity as a function of distance (the source uses
      exp(-10 * distance)). Only a working order can fill. */
  function MaybeFillActiveOrder(o: Order, mid: real, side: Side, u: real,
                                intensity: real -> real): (filled: bool)
    ensures filled ==> o.state == Active
    ensures o.state == Active ==> (filled <==> u < intensity(FillDistance(o, mid, side)))
  {
    if o.state != Active then false
    else u < intensity(FillDistance(o, mid, side))
  }

  /** With an intensity that decays with distance, an order that sits closer to
      the mid fills on every draw on which a farther one on the same side fills. */
  lemma CloserOrderFillsFirst(near: Order, far: Order, mid: real, side: Side, u: real,
                              intensity: real -> real)
    requires forall x: real, y: real :: 0.0 <= x <= y ==> intensity(y) <= intensity(x)
    requires near.state == Active
    requires Offset(near, mid, side) <= Offset(far, mid, side)
    requires MaybeFillActiveOrder(far, mid, side, u, intensity)
    ensures MaybeFillActiveOrder(near, mid, side, u, intensity)
  {
  }

  /** What resolving one side produces: the order, the ledger, and the fills made. */
  datatype Resolution = Resolution(order: Order, ledger: Ledger, fills: seq<Fill>)

  /** Cancel resolution: a cancel-pending order is either filled before the cancel
      lands (on a true draw), trading the fixed quantity at its own price, or
      confirmed canceled with no trade; any other order passes through. */
  function Resolve(o: Order, l: Ledger, side: Side, fillBeforeCancel: bool,
                   qtyPerFill: int): (r: Resolution)
    ensures o.state == PendingCancel ==> r.order.state == Filled || r.order.state == Canceled
    ensures o.state == PendingCancel ==> r.order.price == o.price
    ensures o.state == PendingCancel && fillBeforeCancel ==>
              r.order.state == Filled &&
              r.fills == [Fill(side, o.price, SignedQty(side, qtyPerFill))] &&
              r.ledger.inventory == l.inventory + SignedQty(side, qtyPerFill) as real &&
              r.ledger.cash == l.cash - o.price * SignedQty(side, qtyPerFill) as real
    ensures o.state == PendingCancel && !fillBeforeCancel ==>
              r.order.state == Canceled && r.fills == [] && r.ledger == l
    ensures o.state != PendingCancel ==> r == Resolution(o, l, [])
    ensures r.ledger == ApplyFills(l, r.fills)
  {
    if o.state != PendingCancel then Resolution(o, l, [])
    else if fillBeforeCancel then
      var f := Fill(side, o.price, SignedQty(side, qtyPerFill));
      assert ApplyFills(l, [f]) == ApplyFills(ApplyFill(l, f), []);
      Resolution(o.(state := Filled), ApplyFill(l, f), [f])
    else
      Resolution(o.(state := Canceled), l, [])
  }
}
