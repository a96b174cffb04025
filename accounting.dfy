/** The inventory and cash ledger, fed by fills, and mark-to-market PnL. */
module Accounting {
  import opened Orders

  /** One execution: the side that traded, its price and its signed quantity
      (positive when the agent buys on its bid, negative when it sells on its ask). */
  datatype Fill = Fill(side: Side, price: real, qty: int)

  /** Shares held and cash flow, both signed. */
  datatype Ledger = Ledger(inventory: real, cash: real)

  const EmptyLedger: Ledger := Ledger(0.0, 0.0)

  /** The quantity a fill of `qtyPerFill` shares carries on `side`. */
  function SignedQty(side: Side, qtyPerFill: int): (q: int)
    ensures side == Bid ==> q == qtyPerFill
    ensures side == Ask ==> q == -qtyPerFill
  {
    match side
    case Bid => qtyPerFill
    case Ask => -qtyPerFill
  }

  /** Buying spends cash and adds shares; selling does the reverse. */
  function ApplyFill(l: Ledger, f: Fill): (r: Ledger)
    ensures r.inventory == l.inventory + f.qty as real
    ensures MarkToMarket(r, f.price) == MarkToMarket(l, f.price)
  {
    Ledger(l.inventory + f.qty as real, l.cash - f.price * f.qty as real)
  }

  /** The ledger after the fills `fs`, applied in order. */
  function ApplyFills(l: Ledger, fs: seq<Fill>): Ledger
    decreases |fs|
  {
    if fs == [] then l else ApplyFills(ApplyFill(l, fs[0]), fs[1..])
  }

  /** Sum of the signed quantities of `fs`. */
  function TotalQty(fs: seq<Fill>): real
  {
    if fs == [] then 0.0 else fs[0].qty as real + TotalQty(fs[1..])
  }

  /** Sum of price times signed quantity over `fs`. */
  function TotalCost(fs: seq<Fill>): real
  {
    if fs == [] then 0.0 else fs[0].price * fs[0].qty as real + TotalCost(fs[1..])
  }

  /** Sum over `fs` of what each fill earned against `mid`: q * (mid - price). */
  function TotalEdge(fs: seq<Fill>, mid: real): real
  {
    if fs == [] then 0.0 else fs[0].qty as real * (mid - fs[0].price) + TotalEdge(fs[1..], mid)
  }

  /** Mark-to-market PnL: cash plus inventory valued at the mid; derived, never stored. */
  function MarkToMarket(l: Ledger, mid: real): real
  {
    l.cash + l.inventory * mid
  }

  /** Ledger conservation: after any sequence of fills the inventory has grown
      by the sum of the quantities and the cash has dropped by the sum of
      price times quantity. */
  lemma {:induction false} LedgerConservation(l: Ledger, fs: seq<Fill>)
    ensures ApplyFills(l, fs) == Ledger(l.inventory + TotalQty(fs), l.cash - TotalCost(fs))
    decreases |fs|
  {
    if fs != [] {
      LedgerConservation(ApplyFill(l, fs[0]), fs[1..]);
    }
  }

  /** Applying two batches of fills one after the other is applying their concatenation. */
  lemma {:induction false} ApplyFillsAppend(l: Ledger, xs: seq<Fill>, ys: seq<Fill>)
    ensures ApplyFills(l, xs + ys) == ApplyFills(ApplyFills(l, xs), ys)
    decreases |xs|
  {
    if xs != [] {
      assert (xs + ys)[0] == xs[0];
      assert (xs + ys)[1..] == xs[1..] + ys;
      ApplyFillsAppend(ApplyFill(l, xs[0]), xs[1..], ys);
    } else {
      assert xs + ys == ys;
    }
  }

  /** A fill moves mark-to-market PnL by its quantity times its distance from the
      mid; in particular a fill at the mid leaves PnL unchanged. */
  lemma FillPnl(l: Ledger, f: Fill, mid: real)
    ensures MarkToMarket(ApplyFill(l, f), mid) == MarkToMarket(l, mid) + f.qty as real * (mid - f.price)
  {
  }

  /** Starting from an empty ledger, mark-to-market PnL is the sum of what each
      fill earned against the current mid. */
  lemma {:induction false} PnlFromEmpty(fs: seq<Fill>, mid: real)
    ensures MarkToMarket(ApplyFills(EmptyLedger, fs), mid) == TotalEdge(fs, mid)
  {
    LedgerConservation(EmptyLedger, fs);
    EdgeIsQtyMinusCost(fs, mid);
  }

  lemma {:induction false} EdgeIsQtyMinusCost(fs: seq<Fill>, mid: real)
    ensures TotalEdge(fs, mid) == TotalQty(fs) * mid - TotalCost(fs)
    decreases |fs|
  {
    if fs != [] {
      EdgeIsQtyMinusCost(fs[1..], mid);
      var q, p := fs[0].qty as real, fs[0].price;
      assert q * (mid - p) == q * mid - p * q;
      assert (q + TotalQty(fs[1..])) * mid == q * mid + TotalQty(fs[1..]) * mid;
    }
  }
}
