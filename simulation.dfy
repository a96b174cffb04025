/** One simulation step, in its fixed order (price, quote, fills on working
    orders, cancel resolution, lost-cancel check, PnL, recycle), and the run
    of many steps; first as functions on values, then as the loop over the
    market maker and market objects. */
module Simulation {
  import opened Orders
  import opened Accounting
  import opened Market
  import opened Quoting
  import opened Execution
  import Agent

  /** Shares traded by every fill. */
  const QtyPerFill: int := 1

  /** The random outcomes one step consumes, in the order the source draws them:
      the price shock, the uniform fill draws for bid and ask, and the
      fill-before-cancel outcomes for bid and ask. */
  datatype Draws = Draws(shock: real, bidU: real, askU: real,
                         bidFillsFirst: bool, askFillsFirst: bool)

  /** The mid-price together with the agent. */
  datatype World = World(mid: real, agent: AgentState)

  const InitialWorld: World := World(100.0, InitialAgent)

  /** An agent after one phase, with the fills that phase made. */
  datatype Phase = Phase(agent: AgentState, fills: seq<Fill>)

  /** Step 3 for one side: a working order that the fill engine picks trades
      the fixed quantity at its own price and becomes filled. */
  function AttemptFill(a: AgentState, side: Side, mid: real, u: real,
                       intensity: real -> real, qtyPerFill: int): (r: Phase)
    ensures r.agent.ledger == ApplyFills(a.ledger, r.fills)
    ensures r.agent.OrderOn(Opposite(side)) == a.OrderOn(Opposite(side))
    ensures r.fills != [] <==> MaybeFillActiveOrder(a.OrderOn(side), mid, side, u, intensity)
    ensures r.fills == [] ==> r.agent == a
    ensures r.fills != [] ==>
              a.OrderOn(side).state == Active &&
              r.agent.OrderOn(side) == Order(Filled, a.OrderOn(side).price) &&
              r.fills == [Fill(side, a.OrderOn(side).price, SignedQty(side, qtyPerFill))]
  {
    var o := a.OrderOn(side);
    if MaybeFillActiveOrder(o, mid, side, u, intensity) then
      var f := Fill(side, o.price, SignedQty(side, qtyPerFill));
      assert ApplyFills(a.ledger, [f]) == ApplyFills(ApplyFill(a.ledger, f), []);
      Phase(a.WithOrder(side, o.(state := Filled)).(ledger := ApplyFill(a.ledger, f)), [f])
    else
      Phase(a, [])
  }

  /** Step 4 for one side: cancel resolution applied to the agent. */
  function ResolveSide(a: AgentState, side: Side, fillBeforeCancel: bool,
                       qtyPerFill: int): (r: Phase)
    ensures r.agent.ledger == ApplyFills(a.ledger, r.fills)
    ensures r.agent.OrderOn(Opposite(side)) == a.OrderOn(Opposite(side))
    ensures !LostCancel(r.agent.OrderOn(side))
    ensures var res := Resolve(a.OrderOn(side), a.ledger, side, fillBeforeCancel, qtyPerFill);
            r.agent.OrderOn(side) == res.order && r.fills == res.fills
    ensures a.OrderOn(side).state == PendingCancel ==>
              r.agent.OrderOn(side) ==
                Order(if fillBeforeCancel then Filled else Canceled, a.OrderOn(side).price) &&
              (r.fills != [] <==> fillBeforeCancel)
    ensures a.OrderOn(side).state != PendingCancel ==> r == Phase(a, [])
    ensures r.fills != [] ==>
              r.fills == [Fill(side, a.OrderOn(side).price, SignedQty(side, qtyPerFill))]
  {
    var res := Resolve(a.OrderOn(side), a.ledger, side, fillBeforeCancel, qtyPerFill);
    Phase(a.WithOrder(side, res.order).(ledger := res.ledger), res.fills)
  }

  /** Steps 2 to 4 on an already updated mid: quote, attempt fills on the bid
      then the ask, then resolve the bid then the ask. Whatever the draws, no
      side is left with a cancel in flight, so the lost-cancel check never fires. */
  function Settle(a: AgentState, p: Params, mid: real, d: Draws,
                  intensity: real -> real, qtyPerFill: int): (r: Phase)
    ensures !LostCancel(r.agent.bid) && !LostCancel(r.agent.ask)
  {
    var q := Quote(a, p, mid);
    var f1 := AttemptFill(q, Bid, mid, d.bidU, intensity, qtyPerFill);
    var f2 := AttemptFill(f1.agent, Ask, mid, d.askU, intensity, qtyPerFill);
    var r1 := ResolveSide(f2.agent, Bid, d.bidFillsFirst, qtyPerFill);
    var r2 := ResolveSide(r1.agent, Ask, d.askFillsFirst, qtyPerFill);
    Phase(r2.agent, f1.fills + f2.fills + r1.fills + r2.fills)
  }

  /** Step 7 on the agent: both orders recycled, the ledger kept. An agent
      with no cancel in flight comes out with each side idle or working. */
  function RecycleAgent(a: AgentState): (r: AgentState)
    ensures r.ledger == a.ledger
    ensures r.bid.price == a.bid.price && r.ask.price == a.ask.price
    ensures !LostCancel(a.bid) ==> r.bid.state == None || r.bid.state == Active
    ensures !LostCancel(a.ask) ==> r.ask.state == None || r.ask.state == Active
    ensures a.bid.state == Active <==> r.bid.state == Active
    ensures a.ask.state == Active <==> r.ask.state == Active
  {
    a.(bid := Recycle(a.bid), ask := Recycle(a.ask))
  }

  /** What one step leaves behind, with its fills and the PnL it reports. */
  datatype StepResult = StepResult(world: World, fills: seq<Fill>, pnl: real)

  /** One whole step. The mid stays above its floor and, after the recycle,
      each side is idle or working: those are the only states a quote sees. */
  function Step(w: World, p: Params, d: Draws, intensity: real -> real,
                qtyPerFill: int): (r: StepResult)
    ensures r.world.mid >= MinMidPrice
    ensures r.world.agent.bid.state == None || r.world.agent.bid.state == Active
    ensures r.world.agent.ask.state == None || r.world.agent.ask.state == Active
    ensures r.pnl == MarkToMarket(r.world.agent.ledger, r.world.mid)
  {
    var mid := NextMid(w.mid, d.shock);
    var s := Settle(w.agent, p, mid, d, intensity, qtyPerFill);
    StepResult(World(mid, RecycleAgent(s.agent)), s.fills, MarkToMarket(s.agent.ledger, mid))
  }

  /** The world after the steps driven by `ds`, in order. */
  function Run(w: World, p: Params, ds: seq<Draws>, intensity: real -> real,
               qtyPerFill: int): (r: World)
    ensures ds != [] ==> (r.agent.bid.state == None || r.agent.bid.state == Active) &&
                         (r.agent.ask.state == None || r.agent.ask.state == Active)
    decreases |ds|
  {
    if ds == [] then w
    else Step(Run(w, p, ds[..|ds| - 1], intensity, qtyPerFill), p, ds[|ds| - 1],
              intensity, qtyPerFill).world
  }

  /** Every fill made during the steps driven by `ds`, in order. */
  function RunFills(w: World, p: Params, ds: seq<Draws>, intensity: real -> real,
                    qtyPerFill: int): seq<Fill>
    decreases |ds|
  {
    if ds == [] then []
    else RunFills(w, p, ds[..|ds| - 1], intensity, qtyPerFill)
         + Step(Run(w, p, ds[..|ds| - 1], intensity, qtyPerFill), p, ds[|ds| - 1],
                intensity, qtyPerFill).fills
  }

  // ---------- Properties of a step ----------

  /** The ledger after a step is the ledger before it with the step's fills applied. */
  lemma StepLedger(w: World, p: Params, d: Draws, intensity: real -> real, qtyPerFill: int)
    ensures var r := Step(w, p, d, intensity, qtyPerFill);
            r.world.agent.ledger == ApplyFills(w.agent.ledger, r.fills)
  {
  }

  /** Within one step each side trades at most once (a fill in step 3 is seen
      by step 4, so an order is never resolved twice), and every fill carries
      the fixed quantity signed by its side. */
  lemma StepFillsOncePerSide(w: World, p: Params, d: Draws, intensity: real -> real,
                             qtyPerFill: int)
    ensures var fs := Step(w, p, d, intensity, qtyPerFill).fills;
            |fs| <= 2 &&
            (forall i, j :: 0 <= i < j < |fs| ==> fs[i].side != fs[j].side) &&
            (forall i :: 0 <= i < |fs| ==> fs[i].qty == SignedQty(fs[i].side, qtyPerFill))
  {
  }

  /** The states a run from the initial world can be in at a step boundary:
      each side idle or working, a working bid only while the inventory is
      below the limit and a working ask only while it is above minus the limit. */
  predicate Reachable(a: AgentState, p: Params)
  {
    (a.bid.state == None || a.bid.state == Active) &&
    (a.ask.state == None || a.ask.state == Active) &&
    (a.bid.state == Active ==> a.ledger.inventory < p.inventoryLimit) &&
    (a.ask.state == Active ==> a.ledger.inventory > -p.inventoryLimit)
  }

  /** The inventory is less than one fill beyond the limit on either side. */
  predicate WithinOneFill(a: AgentState, p: Params, qtyPerFill: int)
  {
    -(p.inventoryLimit + qtyPerFill as real) < a.ledger.inventory < p.inventoryLimit + qtyPerFill as real
  }

  /** From a reachable state the cutoff never finds a working order, so quoting
      never requests a cancel. */
  lemma ReachableQuoteNeverCancels(a: AgentState, p: Params, mid: real)
    requires Reachable(a, p)
    ensures Quote(a, p, mid).bid.state != PendingCancel
    ensures Quote(a, p, mid).ask.state != PendingCancel
  {
  }

  /** A step keeps the agent reachable and keeps the inventory within one fill
      of the limit: the hard cutoff bounds the position. */
  lemma StepKeepsReachable(w: World, p: Params, d: Draws, intensity: real -> real,
                           qtyPerFill: int)
    requires qtyPerFill >= 0
    requires Reachable(w.agent, p)
    ensures var a := Step(w, p, d, intensity, qtyPerFill).world.agent;
            Reachable(a, p) &&
            (WithinOneFill(w.agent, p, qtyPerFill) ==> WithinOneFill(a, p, qtyPerFill))
  {
  }

  // ---------- Properties of a run ----------

  /** The ledger after a run is the starting ledger with every fill of the run applied. */
  lemma {:induction false} RunLedger(w: World, p: Params, ds: seq<Draws>,
                                     intensity: real -> real, qtyPerFill: int)
    ensures Run(w, p, ds, intensity, qtyPerFill).agent.ledger
            == ApplyFills(w.agent.ledger, RunFills(w, p, ds, intensity, qtyPerFill))
    decreases |ds|
  {
    if ds != [] {
      var init := ds[..|ds| - 1];
      var before := Run(w, p, init, intensity, qtyPerFill);
      RunLedger(w, p, init, intensity, qtyPerFill);
      StepLedger(before, p, ds[|ds| - 1], intensity, qtyPerFill);
      ApplyFillsAppend(w.agent.ledger, RunFills(w, p, init, intensity, qtyPerFill),
                       Step(before, p, ds[|ds| - 1], intensity, qtyPerFill).fills);
    }
  }

  /** Every world a run passes through is reachable, with the inventory within
      one fill of the limit, when the run starts from one that is. */
  lemma {:induction false} RunKeepsReachable(w: World, p: Params, ds: seq<Draws>,
                                             intensity: real -> real, qtyPerFill: int)
    requires qtyPerFill >= 0
    requires Reachable(w.agent, p) && WithinOneFill(w.agent, p, qtyPerFill)
    ensures var a := Run(w, p, ds, intensity, qtyPerFill).agent;
            Reachable(a, p) && WithinOneFill(a, p, qtyPerFill)
    decreases |ds|
  {
    if ds != [] {
      var init := ds[..|ds| - 1];
      RunKeepsReachable(w, p, init, intensity, qtyPerFill);
      StepKeepsReachable(Run(w, p, init, intensity, qtyPerFill), p, ds[|ds| - 1],
                         intensity, qtyPerFill);
    }
  }

  /** The mid of a run never drops below the floor, given a start above it. */
  lemma RunMidAboveFloor(w: World, p: Params, ds: seq<Draws>, intensity: real -> real,
                         qtyPerFill: int)
    requires w.mid >= MinMidPrice
    ensures Run(w, p, ds, intensity, qtyPerFill).mid >= MinMidPrice
  {
  }

  /** In the source's configuration (the default parameters, one share per
      fill), no run from the initial world ever meets the cutoff with a working
      order: whatever the draws and the next mid, quoting requests no cancel,
      so cancel resolution never has a pending order to settle. */
  lemma InitialRunNeverCancels(ds: seq<Draws>, intensity: real -> real, mid: real)
    ensures var a := Run(InitialWorld, DefaultParams, ds, intensity, QtyPerFill).agent;
            Quote(a, DefaultParams, mid).bid.state != PendingCancel &&
            Quote(a, DefaultParams, mid).ask.state != PendingCancel
  {
    RunKeepsReachable(InitialWorld, DefaultParams, ds, intensity, QtyPerFill);
    ReachableQuoteNeverCancels(Run(InitialWorld, DefaultParams, ds, intensity, QtyPerFill).agent,
                               DefaultParams, mid);
  }

  // ---------- The same step and loop over the objects ----------

  /** Step 3 on the objects for one side: a working order that the fill engine
      picks is booked as a fill of the fixed quantity and marked filled. */
  method FillActiveOrder(mm: Agent.MarketMaker, mkt: MarketState, side: Side, u: real,
                         intensity: real -> real, qtyPerFill: int)
    modifies mm
    ensures mm.State() == AttemptFill(old(mm.State()), side, mkt.midPrice, u, intensity,
                                      qtyPerFill).agent
  {
    var o := mm.OrderOn(side);
    if MaybeFillActiveOrder(o, mkt.midPrice, side, u, intensity) {
      match side
      case Bid =>
        mm.HandleFill(mm.bidOrder.price, qtyPerFill);
        mm.bidOrder := mm.bidOrder.(state := Filled);
      case Ask =>
        mm.HandleFill(mm.askOrder.price, -qtyPerFill);
        mm.askOrder := mm.askOrder.(state := Filled);
    }
  }

  /** Step 7 on the objects: filled and canceled orders go back to idle. */
  method RecycleOrders(mm: Agent.MarketMaker)
    modifies mm
    ensures mm.State() == RecycleAgent(old(mm.State()))
  {
    if mm.bidOrder.state == Filled || mm.bidOrder.state == Canceled {
      mm.bidOrder := mm.bidOrder.(state := None);
    }
    if mm.askOrder.state == Filled || mm.askOrder.state == Canceled {
      mm.askOrder := mm.askOrder.(state := None);
    }
  }

  /** One iteration of the simulation loop over the market and the market maker;
      it returns the mark-to-market PnL the step reports. */
  method SimulationStep(mm: Agent.MarketMaker, mkt: MarketState, d: Draws,
                        intensity: real -> real, qtyPerFill: int) returns (pnl: real)
    modifies mm, mkt
    ensures var r := Step(old(World(mkt.midPrice, mm.State())), mm.Params(), d,
                          intensity, qtyPerFill);
            World(mkt.midPrice, mm.State()) == r.world && pnl == r.pnl
  {
    ghost var w := World(mkt.midPrice, mm.State());
    ghost var p := mm.Params();

    // 1) price
    UpdateMidprice(mkt, d.shock);
    // 2) quotes and cancel requests
    mm.Quote(mkt);
    // 3) fills on working orders, bid first
    FillActiveOrder(mm, mkt, Bid, d.bidU, intensity, qtyPerFill);
    FillActiveOrder(mm, mkt, Ask, d.askU, intensity, qtyPerFill);
    // 4) cancel resolution, bid first
    Agent.ResolvePendingCancel(mm, Bid, d.bidFillsFirst, qtyPerFill);
    Agent.ResolvePendingCancel(mm, Ask, d.askFillsFirst, qtyPerFill);
    ghost var settled := Settle(w.agent, p, mkt.midPrice, d, intensity, qtyPerFill);
    assert mm.State() == settled.agent;
    // 5) no lost cancel
    Agent.AssertNoLostCancels(mm.bidOrder);
    Agent.AssertNoLostCancels(mm.askOrder);
    // 6) mark-to-market PnL
    pnl := mm.cash + mm.inventory * mkt.midPrice;
    // 7) recycle terminal orders
    RecycleOrders(mm);
  }

  /** The simulation loop: one step per element of `ds`. */
  method Simulate(mm: Agent.MarketMaker, mkt: MarketState, ds: seq<Draws>,
                  intensity: real -> real, qtyPerFill: int)
    modifies mm, mkt
    ensures World(mkt.midPrice, mm.State())
            == Run(old(World(mkt.midPrice, mm.State())), mm.Params(), ds, intensity, qtyPerFill)
  {
    ghost var w0 := World(mkt.midPrice, mm.State());
    ghost var p := mm.Params();
    var t := 0;
    while t < |ds|
      invariant 0 <= t <= |ds|
      invariant mm.Params() == p
      invariant World(mkt.midPrice, mm.State()) == Run(w0, p, ds[..t], intensity, qtyPerFill)
    {
      ghost var before := World(mkt.midPrice, mm.State());
      var _ := SimulationStep(mm, mkt, ds[t], intensity, qtyPerFill);
      assert ds[..t + 1][..t] == ds[..t];
      assert Run(w0, p, ds[..t + 1], intensity, qtyPerFill)
             == Step(before, p, ds[t], intensity, qtyPerFill).world;
      t := t + 1;
    }
    assert ds[..|ds|] == ds;
  }

  /** The whole simulation from its initial market and agent, with one share per
      fill: returns the final inventory, cash, mid and PnL. The inventory is the
      sum of the fill quantities and the cash minus the sum of price times
      quantity; the position never gets a whole fill past the limit, and the mid
      stays above its floor. */
  method RunSimulation(ds: seq<Draws>, intensity: real -> real)
    returns (inventory: real, cash: real, mid: real, pnl: real)
    ensures var fs := RunFills(InitialWorld, DefaultParams, ds, intensity, QtyPerFill);
            inventory == TotalQty(fs) && cash == -TotalCost(fs) && pnl == TotalEdge(fs, mid)
    ensures -(DefaultParams.inventoryLimit + 1.0) < inventory < DefaultParams.inventoryLimit + 1.0
    ensures mid >= MinMidPrice
  {
    var mkt := new MarketState(100.0);
    var mm := new Agent.MarketMaker();
    Simulate(mm, mkt, ds, intensity, QtyPerFill);
    inventory, cash, mid := mm.inventory, mm.cash, mkt.midPrice;
    pnl := MarkToMarket(mm.Ledger(), mid);

    ghost var fs := RunFills(InitialWorld, DefaultParams, ds, intensity, QtyPerFill);
    RunLedger(InitialWorld, DefaultParams, ds, intensity, QtyPerFill);
    LedgerConservation(EmptyLedger, fs);
    assert mm.Ledger() == ApplyFills(EmptyLedger, fs);
    PnlFromEmpty(fs, mid);
    RunKeepsReachable(InitialWorld, DefaultParams, ds, intensity, QtyPerFill);
    RunMidAboveFloor(InitialWorld, DefaultParams, ds, intensity, QtyPerFill);
  }
}
