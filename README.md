# Market maker order lifecycle, in Dafny

This project models the core of a single-asset market-making simulator. The
simulator is written in C++ (`market-maker.cpp`). A market maker keeps one
resting order on each side of the book, bid and ask. Every time step runs in
a fixed order:

1. The mid-price takes a random shock, floored at 0.01.
2. The agent quotes. Prices are skewed against its inventory and clamped so
   that they do not cross the mid. A side is armed if it is idle, canceled or
   filled. Past a hard inventory cutoff, a working order on that side is sent
   a cancel instead.
3. Working orders may fill.
4. Any order with a cancel in flight is settled as "filled before the cancel"
   or "canceled".
5. The source aborts if an order is still cancel-pending (a "lost cancel").
6. Mark-to-market PnL (cash plus inventory times the mid) is computed.
7. Filled and canceled orders are recycled to idle.

The modules follow the sections of the source:

- `Orders`: the five-state order and the per-order transitions.
- `Accounting`: the inventory/cash ledger and PnL.
- `Market`: the mid-price and its floored update.
- `Quoting`: the policy.
- `Execution`: the fill decision and cancel resolution.
- `Agent`: the `MarketMaker` class and the methods that mutate it in place.
- `Simulation`: one step and the loop, first as functions on values, then
  over the objects.

Each method that changes state is proved against a function on values:
`MarketMaker.Quote` against `Quoting.Quote`, `SimulationStep` against
`Step`, and `Simulate` against `Run`.

These are the main results:

- **No lost cancel.** For every draw, after cancel resolution neither side is
  cancel-pending (`Settle`). So the abort is unreachable. It is modelled as
  the precondition of `AssertNoLostCancels`, which `SimulationStep` proves.
- **Step boundary.** After the recycle, each side is idle or working (`Step`).
- **Ledger.** Over any run, inventory is the sum of the fill quantities and
  cash is minus the sum of price times quantity (`RunLedger`,
  `LedgerConservation`, `RunSimulation`). Within one step each side trades at
  most once (`StepFillsOncePerSide`).
- **Cancel path never taken.** From the initial state a working bid exists
  only while inventory is below the limit, and a working ask only while it is
  above minus the limit (`Reachable`). So the cutoff never finds a working
  order: no cancel is ever requested, and the cancel-resolution path is never
  taken in a run from the initial state (`InitialRunNeverCancels`, for every
  sequence of draws). Inventory stays less than one fill away from the limit
  (`StepKeepsReachable`, `RunKeepsReachable`).

Quotes can touch the mid. The code clamps a quote only when it strictly
crosses the mid (`>` and `<`, market-maker.cpp:54-55), so a freshly armed bid
is only `<=` the mid. `BidCanTouchMid` shows an input where it equals the mid:
short 10 shares, with the default parameters.

## Model

| member | source | states |
|---|---|---|
| `Orders.RequestCancel` | market-maker.cpp:90-94 | A working order becomes cancel-pending. Every other order is unchanged. The price is always kept, and the result is never working. |
| `Orders.RequestCancelIdempotent` | market-maker.cpp:90-94 | Requesting a cancel twice is the same as requesting it once. |
| `Orders.Recycle` | market-maker.cpp:253-263 | Filled and canceled orders become idle at the same price. Every other order is unchanged. The result is never filled or canceled. |
| `Accounting.SignedQty` | market-maker.cpp:161 | A bid fill carries +qty and an ask fill carries -qty. |
| `Accounting.ApplyFill` | market-maker.cpp:99-102 | A fill adds its signed quantity to inventory. Valued at the fill's own price, the ledger is worth the same before and after: cash moves by exactly price times quantity. |
| `Accounting.MarkToMarket` | market-maker.cpp:228 | PnL is cash + inventory * mid, derived from the ledger and never stored. Its properties are stated by `FillPnl` and `PnlFromEmpty`. |
| `Accounting.LedgerConservation` | market-maker.cpp:99-102 | After any sequence of fills, inventory has grown by the sum of the quantities. Cash has dropped by the sum of price times quantity. |
| `Accounting.ApplyFillsAppend` | market-maker.cpp:99-102 | Applying two batches of fills in turn equals applying their concatenation. |
| `Accounting.FillPnl` | market-maker.cpp:228 | A fill changes mark-to-market PnL by qty times (mid minus price). A fill at the mid leaves PnL unchanged. |
| `Accounting.PnlFromEmpty` | market-maker.cpp:228 | From an empty ledger, PnL equals the sum of what each fill earned against the current mid. |
| `Market.NextMid` | market-maker.cpp:107-111 | The new mid is the larger of 0.01 and mid plus shock. It is at least 0.01, so it is strictly positive for every shock. |
| `Market.UpdateMidprice` | market-maker.cpp:107-111 | Updates the market's mid in place to `NextMid` of the old mid, so it stays at least 0.01. |
| `Market.FloorHolds` | market-maker.cpp:110 | A shock that would take the mid to or below the floor leaves it exactly at 0.01. |
| `Market.MarketState.constructor` | market-maker.cpp:186-187 | The market starts at the given mid. |
| `Quoting.DesiredBid` | market-maker.cpp:46-54 | The bid is at most the mid. It equals mid - gamma*inventory - spread/2 unless that would exceed the mid, in which case it is mid - 0.01. |
| `Quoting.DesiredAsk` | market-maker.cpp:46-55 | The ask is at least the mid. It equals mid - gamma*inventory + spread/2 unless that would be below the mid, in which case it is mid + 0.01. |
| `Quoting.QuoteSide` | market-maker.cpp:57-86 | Past the cutoff, nothing becomes working: a working order goes cancel-pending at the same price and any other order is untouched. Below the cutoff, idle, canceled or filled orders are armed at the desired price. Working and cancel-pending orders are kept with their price (no cancel/replace). |
| `Quoting.Quote` | market-maker.cpp:43-87 | The ledger is unchanged. Each side is decided from its own order and the inventory, with cutoffs `inventory >= limit` (bid) and `inventory <= -limit` (ask). A freshly armed bid is `<=` mid and a freshly armed ask is `>=` mid. |
| `Quoting.QuoteFlatAtHundred` | market-maker.cpp:46-55 | With flat inventory, mid 100 and spread 0.2, both sides are armed from idle: bid 99.9, ask 100.1. |
| `Quoting.BidCanTouchMid` | market-maker.cpp:53-55 | The clamp fires only on strict crossing. With the defaults, inventory -10 gives a bid equal to the mid, and inventory 10 gives an ask equal to the mid. |
| `Quoting.QuoteAtLimitCancelsBid` | market-maker.cpp:58-61 | At inventory 10000, a working bid at 99.9 goes cancel-pending at 99.9, and the ask is still armed. |
| `Execution.FillDistance` | market-maker.cpp:123-131 | The distance is the side's offset from the mid, floored at zero. It is never negative. |
| `Execution.MaybeFillActiveOrder` | market-maker.cpp:115-137 | Never fills a non-working order. A working order fills exactly when the draw is below the intensity at its distance. |
| `Execution.CloserOrderFillsFirst` | market-maker.cpp:123-136 | Take an intensity that decays with distance. Then an order closer to the mid fills on every draw on which a farther one on the same side fills. |
| `Execution.Resolve` | market-maker.cpp:141-168 | A cancel-pending order always ends filled or canceled, at the same price. On a true draw it books one fill of +qty (bid) or -qty (ask) at the order's price. On a false draw the ledger is unchanged. Any other order passes through with no change and no fill. The ledger always equals the start ledger with the fills applied. |
| `Agent.MarketMaker.constructor` | market-maker.cpp:31-40 | Starts with a flat ledger, both sides idle at price 0, spread 0.2, limit 10000 and gamma 0.01. |
| `Agent.MarketMaker.Quote` | market-maker.cpp:43-87 | Updates the object in place to `Quoting.Quote` of its old state at the market's mid. |
| `Agent.MarketMaker.RequestCancel` | market-maker.cpp:90-94 | The order on the given side becomes `RequestCancel` of itself. The other side and the ledger are unchanged. |
| `Agent.MarketMaker.HandleFill` | market-maker.cpp:99-102 | inventory' = inventory + q and cash' = cash - p*q. The orders are unchanged. |
| `Agent.ResolvePendingCancel` | market-maker.cpp:141-168 | The side's order and the ledger become what `Resolve` gives. The other side is unchanged. |
| `Simulation.AttemptFill` | market-maker.cpp:206-215 | The side fills exactly when the fill engine picks its order, and only a working order can be picked. A filled order keeps its price and books one fill of the signed quantity. Otherwise nothing changes. The other side is untouched, and the ledger equals the ledger with the fills applied. |
| `Simulation.ResolveSide` | market-maker.cpp:217-220 | The side's order and fills are what `Resolve` gives. A cancel-pending order ends filled on a true draw and canceled on a false one, at the same price, with a fill exactly on a true draw. Any other order leaves the agent unchanged. The other side is untouched, and the ledger equals the ledger with the fills applied. |
| `Simulation.Settle` | market-maker.cpp:203-225 | Quote, then fills (bid, ask), then resolution (bid, ask). For every draw, neither side is cancel-pending afterwards, so the lost-cancel check never fires. |
| `Simulation.RecycleAgent` | market-maker.cpp:253-263 | The ledger and both prices are kept. A side that is not cancel-pending comes out idle or working, and a side is working afterwards exactly when it was before. |
| `Simulation.Step` | market-maker.cpp:199-263 | After a full step the mid is at least 0.01 and each side is idle or working. The reported PnL is cash + inventory * mid. |
| `Simulation.StepLedger` | market-maker.cpp:206-220 | The ledger after a step is the ledger before it with that step's fills applied in order. |
| `Simulation.StepFillsOncePerSide` | market-maker.cpp:206-220 | A step makes at most two fills, never two on the same side, each with the fixed quantity signed by its side. |
| `Simulation.ReachableQuoteNeverCancels` | market-maker.cpp:57-86 | From a reachable state, quoting never makes either side cancel-pending. |
| `Simulation.StepKeepsReachable` | market-maker.cpp:199-263 | A step keeps the agent reachable: each side is idle or working, a working bid only below the limit and a working ask only above minus the limit. It keeps the inventory strictly within one fill of the limit. |
| `Simulation.Run` | market-maker.cpp:199-264 | Folds `Step` over the draws in order. After at least one step, each side is idle or working. |
| `Simulation.RunLedger` | market-maker.cpp:199-264 | After any run, the ledger is the starting ledger with every fill of the run applied in order. |
| `Simulation.RunKeepsReachable` | market-maker.cpp:199-264 | A run from a reachable state within one fill of the limit stays reachable and within one fill of the limit. |
| `Simulation.InitialRunNeverCancels` | market-maker.cpp:57-86 | With the default parameters and one share per fill, after any sequence of steps from the initial world, quoting at any mid leaves neither side cancel-pending. So the cancel path is never taken. |
| `Simulation.RunMidAboveFloor` | market-maker.cpp:199-201 | The mid of a run never drops below 0.01. |
| `Simulation.FillActiveOrder` | market-maker.cpp:208-215 | Updates the market maker in place to `AttemptFill` of its old state. |
| `Simulation.RecycleOrders` | market-maker.cpp:253-263 | Recycles both orders in place. |
| `Agent.AssertNoLostCancels` | market-maker.cpp:173-179 | Requires that the order is not cancel-pending, in place of the source's abort. `SimulationStep` discharges that requirement for both sides after cancel resolution. |
| `Simulation.SimulationStep` | market-maker.cpp:199-263 | Updates the objects to `Step` of their old state, in the source's order. It discharges the lost-cancel check and returns the step's PnL. |
| `Simulation.Simulate` | market-maker.cpp:199-264 | After the loop, the objects equal `Run` of their initial state over the draws. |
| `Simulation.RunSimulation` | market-maker.cpp:181-273 | From mid 100, the default agent and one share per fill: final inventory is the sum of the fill quantities, cash is minus the sum of price times quantity, and PnL is the sum of each fill's edge against the final mid. Inventory stays within (-10001, 10001) and the mid is at least 0.01. |

## Left out

- Console output is not modelled: the header, the CSV row every 50 steps, the final summary and the state-to-character mapping are I/O. `RunSimulation` returns the summary values instead of printing them.
- The random generator and its distributions are not modelled. Each step takes its draws as parameters (`Draws`): the shock, two uniform fill draws and two fill-before-cancel outcomes, in the source's draw order. The source draws a fill value only for a working order and a Bernoulli value only for a cancel-pending one. So which stream position feeds which parameter is not modelled. Every property is proved for every choice of draws, so it holds whatever the stream yields. The normal distribution's 0.05 deviation and the 0.3 probability only shape the distributions, so they do not appear.
- Execution.MaybeFillActiveOrder: the intensity `exp(-10 * distance)` is a function parameter, because transcendental floating-point functions are out of scope. `CloserOrderFillsFirst` assumes only that it does not increase with distance.
- Floating point is not modelled: prices, cash and inventory are exact reals. The ledger identities and concrete values such as 99.9 hold exactly only under that idealisation. `qty_per_fill` is an unbounded integer.
- `std::exit` becomes the precondition of `AssertNoLostCancels`, proved at its call site. It is not process control.
- `MarketState::spread` and `MarketMaker::fair_value` carry no behaviour and are omitted.
- The 10000-step count and the seed 42 are not modelled. `Simulate` and `Run` take any finite sequence of step draws.
- `resolve_pending_cancel` and `request_cancel` take a reference to an order, but it is always one of the market maker's own two orders. The model passes a `Side` instead, so aliasing between orders is not modelled. The unused market parameter of `resolve_pending_cancel` is dropped.
