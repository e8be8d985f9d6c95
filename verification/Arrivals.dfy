/**
 An order reaching the book, said in terms of the opposing levels: it trades if and only if it may and
 some level is there or better, at the best of them, and what is left of it comes to rest.
 */
module Arrivals {
  import opened Prelude
  import opened OrderBook
  import opened BookInvariant
  import opened Fees
  import opened TradingDesk
  import opened DeskInvariant
  import opened BacktestRuns
  import opened HaltProtocol
  import opened PublicBook
  import B = Backtest
  import P = Paper

  /** The order may take liquidity, and some opposing level is at its limit or better. */
  ghost predicate Takes(book: Book, p: Placement) {
    !p.postOnly && exists price :: Tradable(book, p.side, p.price, price)
  }

  /** The lowest ask for a bid, the highest bid for an ask, with nothing better on that side. */
  ghost predicate IsBestOpposite(book: Book, side: Side, price: real) {
    match side
    case Bid => IsBestAsk(book, price)
    case Ask => IsBestBid(book, price)
  }

  /** The size of an opposing level. */
  function OpposingSize(book: Book, side: Side, price: real): real {
    match side
    case Bid => PublicSize(book, Ask, price)
    case Ask => PublicSize(book, Bid, price)
  }

  /**
   The fill of an order that takes: at the best opposing price, the lesser of its size and that
   level's, as a taker, now, with the fee of the category and no rebate.
   */
  ghost predicate IsTakerFill(f: Fill, book: Book, p: Placement, now: int, category: FeeCategory) {
    && f.id == p.id && f.side == p.side && f.timestamp == now && !f.isMaker
    && IsBestOpposite(book, p.side, f.price) && Tradable(book, p.side, p.price, f.price)
    && f.feePaid == TakerFee(f.price, f.size, category) && f.rebateReceived == 0.0
    && f.queueAhead == 0.0 && f.timeInBook == 0
    && var available := OpposingSize(book, p.side, f.price);
       f.size <= p.size && f.size <= available && (f.size == p.size || f.size == available)
  }

  /** What comes to rest: at the limit price, last of our orders, behind all that is public there. */
  ghost predicate ComesToRest(before: Book, after: Book, p: Placement, size: real, now: Millis) {
    var public := PublicSize(before, p.side, p.price);
    && after.bids == before.bids && after.asks == before.asks && after.tick == before.tick
    && after.orders == (if size > 0.0
                        then before.orders + [Resting(p.id, p.side, p.price, size, public, public, now)]
                        else before.orders)
  }

  /** What the arrival of `p` makes of book, fills and pending orders. */
  ghost predicate ArrivalEffect(before: Core, after: Core, p: Placement, now: Millis, category: FeeCategory) {
    var past, fills := before.account.fills, after.account.fills;
    && after.pending == before.pending - {p.id} && after.account.lastMid == before.account.lastMid
    && (if Takes(before.book, p)
        then && |fills| == |past| + 1 && fills[..|past|] == past
             && IsTakerFill(fills[|past|], before.book, p, now, category)
             && ComesToRest(before.book, after.book, p, p.size - fills[|past|].size, now)
        else fills == past && ComesToRest(before.book, after.book, p, p.size, now))
  }

  lemma OppositeIs(book: Book, p: Placement)
    ensures Takes(book, p) <==> !p.postOnly && CrossesSpread(book, p.side, p.price)
    ensures Takes(book, p) ==>
              var top := Opposite(book, p.side);
              && top.Some? && IsBestOpposite(book, p.side, top.value.0) && Tradable(book, p.side, p.price, top.value.0)
              && top.value.1 == OpposingSize(book, p.side, top.value.0)
  {
    CrossesIff(book, p.side, p.price);
    BestBidIs(book);
    BestAskIs(book);
  }

  /** The arrival of a pending order that the book accepts. */
  lemma ArrivalTrades(category: FeeCategory, core: Core, p: Placement, now: Millis)
    requires p.id in core.pending && CanAdd(core.book, p.id, p.size)
    ensures ArrivalEffect(core, ApplyPlace(category, core, p, now), p, now, category)
  {
    OppositeIs(core.book, p);
    hide Takes, CrossesSpread, Opposite, Tradable, IsBestOpposite, TakerFee;
    var after := ApplyPlace(category, core, p, now);
    if Takes(core.book, p) {
      var top := Opposite(core.book, p.side).value;
      var f := TakerFill(p, top.0, Min(p.size, top.1), now, category);
      assert after.account.fills == core.account.fills + [f];
      assert IsTakerFill(f, core.book, p, now, category);
      assert ComesToRest(core.book, after.book, p, p.size - f.size, now);
    } else {
      assert ComesToRest(core.book, after.book, p, p.size, now);
    }
  }

  lemma PendingCanBeAdded(d: Desk, p: Placement)
    requires Consistent(d) && p.id in d.core.pending && d.queue != [] && d.queue[0].payload == PlaceArrival(p)
    ensures CanAdd(d.core.book, p.id, p.size)
  {
    assert PendsAsPlaced(d.core, p.id, d.history);
    assert Known(d.queue[0].payload.order, d.history.placed);
  }

  /**
   The arrival of an order in a backtest. If it has not been cancelled on its way, the step has the
   effect above; if it has, it changes neither the book nor the accounts.
   */
  lemma ArrivalInRun<S>(setup: B.Setup<S>, book: Book, tape: seq<MarketEvent>, state: S, n: nat, p: Placement)
    requires Wf(book) && book.orders == []
    requires var sim := B.After(setup, B.Start(book, tape, state), n);
             !B.Done(sim) && sim.desk.queue[0].payload == PlaceArrival(p)
    ensures var sim, after := B.After(setup, B.Start(book, tape, state), n).desk,
                B.After(setup, B.Start(book, tape, state), n + 1).desk;
            if p.id in sim.core.pending
            then ArrivalEffect(sim.core, after.core.(pending := sim.core.pending - {p.id}), p, sim.queue[0].ts,
                               setup.category)
            else after.core.book == sim.core.book && after.core.account == sim.core.account
  {
    hide B.Step, B.Start, Consistent;
    var sim := B.After(setup, B.Start(book, tape, state), n);
    RunConsistent(setup, book, tape, state, n);
    StepIsDelivery(setup, sim);
    if p.id in sim.desk.core.pending {
      PendingCanBeAdded(sim.desk, p);
      ArrivalTrades(setup.category, sim.desk.core, p, sim.desk.queue[0].ts);
    }
  }

  /** The same arrival drained by the paper trader, late if the clock is already past it. */
  lemma ArrivalInTrader<S>(setup: P.PaperSetup<S>, t: P.Trader<S>, p: Placement)
    requires Trading(t) && t.desk.queue != [] && t.desk.queue[0].payload == PlaceArrival(p)
    ensures var after, due := P.DrainOne(setup.category, t).desk, t.desk.queue[0].ts;
            var now := if due > t.desk.now then due else t.desk.now;
            if p.id in t.desk.core.pending
            then ArrivalEffect(t.desk.core, after.core, p, now, setup.category)
            else after.core == t.desk.core
  {
    var core, after := t.desk.core, P.DrainOne(setup.category, t).desk;
    var now := P.Due(t.desk).queue[0].ts;
    assert after.core == ApplyPlace(setup.category, core, p, now);
    if p.id in core.pending {
      PendingCanBeAdded(t.desk, p);
      hide ApplyPlace, P.DrainOne, ArrivalEffect, Consistent;
      ArrivalTrades(setup.category, core, p, now);
    }
  }
}
