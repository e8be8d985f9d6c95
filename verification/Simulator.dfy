/**
 The interface a strategy object talks to. The original passes either engine by duck typing; here it
 is one of two objects, and what a call does to it is said about the desk that both have.
 */
module SimulatorInterface {
  import opened Prelude
  import opened OrderBook
  import opened TradingDesk
  import opened EventHeap
  import opened L2OrderBookClass
  import opened BacktesterClass
  import opened PaperTraderClass

  datatype Simulator<!S> = Backtesting(engine: Backtester) | Papering(trader: PaperTrader<S>)
  {
    /** The engine, if it is a backtester. */
    ghost function Engines(): set<Backtester> {
      if Backtesting? then {engine} else {}
    }

    ghost function Traders(): set<PaperTrader<S>> {
      if Papering? then {trader} else {}
    }

    function Book(): L2OrderBook {
      if Backtesting? then engine.book else trader.book
    }

    function Delay(): Latency {
      if Backtesting? then engine.latency else trader.latency
    }

    ghost predicate Valid()
      reads Engines(), Traders(), Book()
    {
      if Backtesting? then engine.Valid() else trader.Valid()
    }

    ghost function DeskView(): Desk
      reads Engines(), Traders(), Book()
      requires Valid()
    {
      if Backtesting? then engine.View() else trader.DeskView()
    }

    /** What a strategy may look at. */
    method Look() returns (view: View)
      requires Valid()
      ensures view == ViewOf(DeskView())
    {
      hide Heap, Queued, L2OrderBook.View, L2OrderBook.Valid;
      match this
      case Backtesting(engine) => view := View(engine.nowMs, engine.inventory, engine.book.View(), engine.nextOrderId);
      case Papering(trader) => view := View(trader.nowMs, trader.inventory, trader.book.View(), trader.nextOrderId);
    }

    method PlaceLimit(side: Side, price: real, size: real, postOnly: bool) returns (id: Option<OrderId>)
      requires Valid()
      modifies Engines()`heap, Engines()`seqCounter, Engines()`latencyDraws, Engines()`nextOrderId
      modifies Engines()`pendingPlaces, Engines()`history
      modifies Traders()`pendingArrivals, Traders()`seqCounter, Traders()`latencyDraws, Traders()`nextOrderId
      modifies Traders()`pendingPlaces, Traders()`history
      ensures Valid()
      ensures size <= 0.0 ==> id == None && DeskView() == old(DeskView())
      ensures size > 0.0 ==>
                && id == Some(old(DeskView()).nextId)
                && DeskView() == TradingDesk.PlaceLimit(Delay(), old(DeskView()), side, price, size, postOnly)
    {
      hide Heap, Queued, TradingDesk.PlaceLimit;
      match this
      case Backtesting(engine) => id := engine.PlaceLimit(side, price, size, postOnly);
      case Papering(trader) => id := trader.PlaceLimit(side, price, size, postOnly);
    }

    method Cancel(id: OrderId)
      requires Valid()
      modifies Engines()`heap, Engines()`seqCounter, Engines()`latencyDraws, Engines()`history
      modifies Traders()`pendingArrivals, Traders()`seqCounter, Traders()`latencyDraws, Traders()`history
      ensures Valid() && DeskView() == RequestCancel(Delay(), old(DeskView()), id)
    {
      hide Heap, Queued, RequestCancel;
      match this
      case Backtesting(engine) => engine.Cancel(id);
      case Papering(trader) => trader.Cancel(id);
    }
  }
}
