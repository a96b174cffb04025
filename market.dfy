/** The market's mid-price and its per-step random-walk update. */
module Market {

  /** The mid-price never falls below this floor. */
  const MinMidPrice: real := 0.01

  /** The mid after a shock, floored at MinMidPrice (std::max(0.01, mid + shock)). */
  function NextMid(mid: real, shock: real): (m: real)
    ensures m >= MinMidPrice && m > 0.0
    ensures m >= mid + shock
    ensures m == mid + shock || m == MinMidPrice
  {
    if MinMidPrice < mid + shock then mid + shock else MinMidPrice
  }

  /** Shared market state, updated in place once per step. */
  class MarketState {
    var midPrice: real

    constructor (mid: real)
      ensures midPrice == mid
    {
      midPrice := mid;
    }
  }

  /** Adds the step's Gaussian shock to the mid and applies the floor. */
  method UpdateMidprice(mkt: MarketState, shock: real)
    modifies mkt
    ensures mkt.midPrice == NextMid(old(mkt.midPrice), shock)
    ensures mkt.midPrice >= MinMidPrice
  {
    var moved := mkt.midPrice + shock;
    if MinMidPrice < moved {
      mkt.midPrice := moved;
    } else {
      mkt.midPrice := MinMidPrice;
    }
  }

  /** However negative the shock, the mid stays strictly positive; a shock that
      would take it to or below the floor leaves it exactly at the floor. */
  lemma FloorHolds(mid: real, shock: real)
    requires mid + shock <= MinMidPrice
    ensures NextMid(mid, shock) == MinMidPrice
  {
  }
}
