/** The quoting strategy as an object that talks to the simulator: fields for both quotes, reconciled in place. */
module QuotingStrategyClass {
  import opened Prelude
  import opened OrderBook
  import opened TradingDesk
  import opened Quoting
  import opened OneOrderPerSide
  import opened SimulatorInterface

  class QuotingStrategy<I> {
    const quoter: Quoter<I>
    var bidOid: Option<OrderId>
    var bidPrice: Option<real>
    var askOid: Option<OrderId>
    var askPrice: Option<real>
    var inner: I

    ghost function View(): QuoteState<I>
      reads this
    {
      QuoteState(Quote(bidOid, bidPrice), Quote(askOid, askPrice), inner)
    }

    constructor (quoter: Quoter<I>, inner: I)
      ensures this.quoter == quoter && View() == Initial(inner)
    {
      this.quoter, this.inner := quoter, inner;
      bidOid, bidPrice, askOid, askPrice := None, None, None, None;
    }

    /** Cancel the quote of one side if it is off target, place one if none is left. */
    method Reconcile<S>(sim: Simulator<S>, side: Side, target: Option<real>, oid: Option<OrderId>, price: Option<real>)
      returns (curOid: Option<OrderId>, curPrice: Option<real>)
      requires sim.Valid()
      modifies sim.Engines()`heap, sim.Engines()`seqCounter, sim.Engines()`latencyDraws, sim.Engines()`nextOrderId
      modifies sim.Engines()`pendingPlaces, sim.Engines()`history
      modifies sim.Traders()`pendingArrivals, sim.Traders()`seqCounter, sim.Traders()`latencyDraws
      modifies sim.Traders()`nextOrderId, sim.Traders()`pendingPlaces, sim.Traders()`history
      ensures sim.Valid()
      ensures var actions := ReconcileActions(Quote(oid, price), side, target, quoter.size, sim.Book().tick);
              && (forall i :: 0 <= i < |actions| ==> Acceptable(actions[i]))
              && sim.DeskView() == PerformAll(sim.Delay(), old(sim.DeskView()), actions)
      ensures Quote(curOid, curPrice) == Reconciled(Quote(oid, price), target, sim.Book().tick,
                                                    old(sim.DeskView()).nextId)
    {
      hide Perform, Simulator.DeskView, Simulator.Valid, TradingDesk.PlaceLimit, RequestCancel, Abs;
      ghost var start, q, latency := sim.DeskView(), Quote(oid, price), sim.Delay();
      curOid, curPrice := oid, price;
      var tick := sim.Book().tick;
      var samePrice := price.Some? && target.Some? && Abs(price.value - target.value) < tick / 2.0;
      ghost var first: seq<Action> := if MustCancel(q, target, tick) then [CancelOrder(oid.value)] else [];
      ghost var second: seq<Action> :=
        if MustPlace(q, target, tick) then [PlaceOrder(side, target.value, quoter.size, true)] else [];
      PerformAllConcat(latency, start, first, second);
      KeepsNextId(latency, start, first);
      if curOid.Some? && !samePrice {
        sim.Cancel(curOid.value);
        PerformOne(latency, start, CancelOrder(oid.value));
        CancelIsPerform(latency, start, oid.value);
        curOid, curPrice := None, None;
      }
      ghost var between := sim.DeskView();
      assert between == PerformAll(latency, start, first);
      if target.Some? && curOid.None? {
        curOid := sim.PlaceLimit(side, target.value, quoter.size, true);
        PerformOne(latency, between, PlaceOrder(side, target.value, quoter.size, true));
        PlaceIsPerform(latency, between, side, target.value, quoter.size);
        curPrice := target;
      }
      assert sim.DeskView() == PerformAll(latency, between, second);
    }

    lemma CancelIsPerform(latency: Latency, d: Desk, id: OrderId)
      ensures Perform(latency, d, CancelOrder(id)) == RequestCancel(latency, d, id)
    {
    }

    lemma PlaceIsPerform(latency: Latency, d: Desk, side: Side, price: real, size: OrderSize)
      ensures Perform(latency, d, PlaceOrder(side, price, size, true))
              == PlaceLimit(latency, d, side, price, size, true)
    {
    }

    method ReconcileSide<S>(sim: Simulator<S>, side: Side, target: Option<real>)
      requires sim.Valid()
      modifies this`bidOid, this`bidPrice, this`askOid, this`askPrice
      modifies sim.Engines()`heap, sim.Engines()`seqCounter, sim.Engines()`latencyDraws, sim.Engines()`nextOrderId
      modifies sim.Engines()`pendingPlaces, sim.Engines()`history
      modifies sim.Traders()`pendingArrivals, sim.Traders()`seqCounter, sim.Traders()`latencyDraws
      modifies sim.Traders()`nextOrderId, sim.Traders()`pendingPlaces, sim.Traders()`history
      ensures sim.Valid()
      ensures var actions := ReconcileActions(old(QuoteOn(View(), side)), side, target, quoter.size, sim.Book().tick);
              && (forall i :: 0 <= i < |actions| ==> Acceptable(actions[i]))
              && sim.DeskView() == PerformAll(sim.Delay(), old(sim.DeskView()), actions)
      ensures var quote := Reconciled(old(QuoteOn(View(), side)), target, sim.Book().tick, old(sim.DeskView()).nextId);
              View() == if side.Bid? then old(View()).(bid := quote) else old(View()).(ask := quote)
    {
      hide ReconcileActions, Reconciled, Simulator.DeskView, Simulator.Valid;
      if side.Bid? {
        bidOid, bidPrice := Reconcile(sim, side, target, bidOid, bidPrice);
      } else {
        askOid, askPrice := Reconcile(sim, side, target, askOid, askPrice);
      }
    }

    /**
     One callback. On the simulator it has the effect of the actions that the strategy function
     answers with, and it leaves the object in the state that function returns.
     */
    method OnEvent<S>(sim: Simulator<S>, e: Timed)
      requires sim.Valid()
      modifies this
      modifies sim.Engines()`heap, sim.Engines()`seqCounter, sim.Engines()`latencyDraws, sim.Engines()`nextOrderId
      modifies sim.Engines()`pendingPlaces, sim.Engines()`history
      modifies sim.Traders()`pendingArrivals, sim.Traders()`seqCounter, sim.Traders()`latencyDraws
      modifies sim.Traders()`nextOrderId, sim.Traders()`pendingPlaces, sim.Traders()`history
      ensures sim.Valid()
      ensures var reply := Quoting.OnEvent(quoter, old(View()), old(ViewOf(sim.DeskView())), e);
              && View() == reply.state
              && (forall i :: 0 <= i < |reply.actions| ==> Acceptable(reply.actions[i]))
              && sim.DeskView() == PerformAll(sim.Delay(), old(sim.DeskView()), reply.actions)
    {
      hide ReconcileActions, Reconciled, PerformAll;
      var view := sim.Look();
      ghost var start, state := sim.DeskView(), View();
      inner := quoter.observe(inner, view, e);
      if KindOf(e) !in quoter.requoteKinds {
        PerformNothing(sim.Delay(), start);
        return;
      }
      var desired := quoter.desired(inner, view);
      var bidTarget, askTarget := desired.1.0, desired.1.1;
      inner := desired.0;
      ReconcileSide(sim, Bid, bidTarget);
      BidTakesId(sim.Delay(), start, state.bid, bidTarget, quoter.size, view);
      ReconcileSide(sim, Ask, askTarget);
      PerformAllConcat(sim.Delay(), start, ReconcileActions(state.bid, Bid, bidTarget, quoter.size, view.book.tick),
                       ReconcileActions(state.ask, Ask, askTarget, quoter.size, view.book.tick));
    }

    /** The ask placement gets the next id after the bid placement, if there was one. */
    lemma BidTakesId(latency: Latency, d: Desk, q: Quote, target: Option<real>, size: OrderSize, view: TradingDesk.View)
      requires view.nextId == d.nextId
      ensures var actions := ReconcileActions(q, Bid, target, size, view.book.tick);
              && (forall i :: 0 <= i < |actions| ==> Acceptable(actions[i]))
              && PerformAll(latency, d, actions).nextId == AskId(q, target, view)
    {
      var tick := view.book.tick;
      var first: seq<Action> := if MustCancel(q, target, tick) then [CancelOrder(q.oid.value)] else [];
      var second: seq<Action> := if MustPlace(q, target, tick) then [PlaceOrder(Bid, target.value, size, true)] else [];
      PerformAllConcat(latency, d, first, second);
      KeepsNextId(latency, d, first);
      KeepsNextId(latency, PerformAll(latency, d, first), second);
    }
  }
}
