/**
 Price-time priority and taker fills. A trade fills an older order of ours before a younger one, but
 an arriving order that crosses the spread takes public size that the older one still waits for.
 */
module TakerPriority {
  import opened Prelude
  import opened OrderBook
  import opened BookInvariant
  import opened TradePriority
  import opened Fees
  import opened TradingDesk
  import opened DeskInvariant
  import opened BacktestRuns
  import B = Backtest

  /** `older` rests, on the side and at the limit of `younger`, which came to rest later or is still on its way. */
  ghost predicate Ahead(d: Desk, older: OrderId, younger: OrderId) {
    && older in d.history.placed && younger in d.history.placed && older != younger
    && d.history.placed[older].side == d.history.placed[younger].side
    && d.history.placed[older].price == d.history.placed[younger].price
    && Tracks(d.core.book.orders, older)
    && (younger in d.core.pending
        || (Tracks(d.core.book.orders, younger) && RestedInOrder(d.history.rested, older, younger)))
  }

  /** The event is the arrival of this order, and it takes. */
  predicate TakesOnArrival(core: Core, e: Timed, id: OrderId) {
    && e.payload.PlaceArrival? && e.payload.order.id == id && id in core.pending
    && !e.payload.order.postOnly && CrossesSpread(core.book, e.payload.order.side, e.payload.order.price)
  }

  ghost predicate GoneAndFull(after: Core, id: OrderId, size: real) {
    !Tracks(after.book.orders, id) && FilledSize(after.account.fills, id) == size
  }

  lemma TradeReachesOnlyResting(d: Desk, e: Timed, older: OrderId, younger: OrderId)
    requires Consistent(d) && Ahead(d, older, younger) && Gain(d.core, e, younger) != 0.0 && e.payload.Market?
    ensures AheadAtLevel(d, older, younger)
  {
    var event := e.payload.event;
    var t := PrintOf(d.core.book, event.price, event.side, event.ts);
    FilledByMeansFilled(Traded(d.core.book, event.price, event.size, event.side, event.ts).fills, younger);
    WalkFillsOnlyTracked(d.core.book.orders, t, event.size, map[], younger);
    assert younger in d.core.pending ==> PendsAsPlaced(d.core, younger, d.history);
  }

  lemma TakerLeavesOlder(category: FeeCategory, d: Desk, e: Timed, older: OrderId, younger: OrderId)
    requires Consistent(d) && Ahead(d, older, younger) && TakesOnArrival(d.core, e, younger)
    ensures var after := Apply(category, d.core, e);
            && Tracks(after.book.orders, older)
            && FilledSize(after.account.fills, older)
               == FilledSize(d.core.account.fills, older) < d.history.placed[older].size
  {
    var i := PositionOf(d.core.book.orders, older);
    FilledPlusResting(d, i);
    assert WfOrder(d.core.book.orders[i]);
    GainIsFilled(category, d.core, e, older);
    assert Apply(category, d.core, e).book.orders[i] == d.core.book.orders[i];
  }

  /**
   Who is served first, exactly. When a step fills an order while an older one of the same side and
   limit rests, the older one is gone and full if and only if the event is a trade. It is passed over
   if and only if the event is the younger one's own arrival, not post-only and through the spread.
   */
  lemma PassedOverIffTaken<S>(setup: B.Setup<S>, book: Book, tape: seq<MarketEvent>, state: S, n: nat,
                              older: OrderId, younger: OrderId)
    requires Wf(book) && book.orders == []
    requires Ahead(DeskAt(setup, book, tape, state, n), older, younger)
    requires FilledSize(DeskAt(setup, book, tape, state, n + 1).core.account.fills, younger)
             != FilledSize(DeskAt(setup, book, tape, state, n).core.account.fills, younger)
    ensures var d, after := DeskAt(setup, book, tape, state, n), DeskAt(setup, book, tape, state, n + 1).core;
            && d.queue != []
            && (GoneAndFull(after, older, d.history.placed[older].size)
                <==> d.queue[0].payload.Market? && d.queue[0].payload.event.LastTrade?)
            && (Tracks(after.book.orders, older) <==> TakesOnArrival(d.core, d.queue[0], younger))
            && (Tracks(after.book.orders, older) ==>
                  FilledSize(after.account.fills, older) == FilledSize(d.core.account.fills, older))
  {
    hide Apply, FilledSize, Consistent, PlaceLimit;
    var sim := B.After(setup, B.Start(book, tape, state), n);
    var d, e := sim.desk, sim.desk.queue[0];
    RunConsistent(setup, book, tape, state, n);
    StepIsDelivery(setup, sim);
    ConsistentIsAccounted(d);
    GainIsFilled(setup.category, d.core, e, younger);
    if e.payload.Market? {
      TradeReachesOnlyResting(d, e, older, younger);
      OlderGoneAfterEvent(setup.category, d, e, older, younger);
    } else {
      TakerLeavesOlder(setup.category, d, e, older, younger);
    }
  }

  lemma ConsistentIsAccounted(d: Desk)
    requires Consistent(d)
    ensures Accounted(d.core.account)
  {
  }

  // ---------- a run that passes an order over ----------

  const EMPTY: Book := Book(0.01, map[], map[], [])
  const QUOTED: MarketEvent := BookSnapshot(0, [], [(0.5, 10.0)])
  const FIRST_BID: Placement := Placement(1, Bid, 0.55, 15.0, false)
  const SECOND_BID: Placement := Placement(2, Bid, 0.55, 5.0, false)

  /** Two bids through the spread on the market event, nothing else. */
  function BidTwice(state: bool, view: View, e: Timed): Reply<bool> {
    if e.payload.Market? then Reply(true, [PlaceOrder(Bid, 0.55, 15.0, false), PlaceOrder(Bid, 0.55, 5.0, false)])
    else Reply(state, [])
  }

  function BidTwiceSetup(): B.Setup<bool> {
    B.Setup(Geopolitics, (n: nat, now: Millis) => Instant(n, now),
            Strategy((s: bool, v: View, e: Timed, n: nat) => BidTwice(s, v, e)))
  }

  /** The book after the snapshot, with or without the rest of the first bid. */
  function QuotedBook(orders: seq<Resting>): Book {
    EMPTY.(asks := map[0.5 := 10.0], orders := orders)
  }

  lemma QuotedTop(orders: seq<Resting>)
    ensures BestAsk(QuotedBook(orders)) == Some((0.5, 10.0)) && BestBid(QuotedBook(orders)) == None
  {
    assert 0.5 in QuotedBook(orders).asks.Keys;
  }

  lemma TwoBidsUnderWay()
    ensures var d := DeskAt(BidTwiceSetup(), EMPTY, [QUOTED], false, 1);
            && d.core.book == QuotedBook([]) && d.core.account.fills == [] && d.now == 0
            && d.queue == [Timed(0, PlaceArrival(FIRST_BID)), Timed(0, PlaceArrival(SECOND_BID))]
            && d.core.pending == map[1 := FIRST_BID, 2 := SECOND_BID] && d.history.placed == d.core.pending
    ensures var sim := B.After(BidTwiceSetup(), B.Start(EMPTY, [QUOTED], false), 1); !B.Done(sim) && sim.tape == []
  {
    var start := B.Start(EMPTY, [QUOTED], false);
    assert [QUOTED][1..] == [] && start.desk.queue == [OnTape(QUOTED)];
    var pair := [(0.5, 10.0)];
    assert FromPairs(pair) == map[0.5 := 10.0] by { assert pair[..0] == []; }
    var d := B.Applied(BidTwiceSetup(), start).desk;
    QuotedTop([]);
    assert d.core.book == QuotedBook([]) && d.queue == [];
    var a, b := PlaceOrder(Bid, 0.55, 15.0, false), PlaceOrder(Bid, 0.55, 5.0, false);
    assert Allowed([a, b]) == [a, b] by { assert [a, b][1..] == [b] && [b][1..] == []; }
    var once := Perform(BidTwiceSetup().latency, d, a);
    assert PerformAll(BidTwiceSetup().latency, d, [a]) == once by { assert [a][..0] == []; }
    assert PerformAll(BidTwiceSetup().latency, d, [a, b]) == Perform(BidTwiceSetup().latency, once, b) by {
      assert [a, b][..1] == [a];
    }
    assert once.queue == [Timed(0, PlaceArrival(FIRST_BID))];
    assert B.After(BidTwiceSetup(), start, 0) == start;
  }

  /** The public ask is still there after a taker fill: each bid takes from the same ten units. */
  lemma BidTakes(core: Core, p: Placement)
    requires core.book == QuotedBook(core.book.orders) && p.id in core.pending && p.side == Bid && p.price == 0.55
             && !p.postOnly
    requires !Tracks(core.book.orders, p.id)
    ensures var after := ApplyPlace(Geopolitics, core, p, 0);
            && after.account.fills == core.account.fills + [TakerFill(p, 0.5, Min(p.size, 10.0), 0, Geopolitics)]
            && after.pending == core.pending - {p.id}
            && after.book == QuotedBook(if p.size > 10.0
                                        then core.book.orders + [Resting(p.id, Bid, 0.55, p.size - 10.0, 0.0, 0.0, 0)]
                                        else core.book.orders)
  {
    QuotedTop(core.book.orders);
  }

  lemma SilentOnArrivals(sim: B.Sim<bool>)
    requires !B.Done(sim) && sim.desk.queue[0].payload.PlaceArrival? && sim.tape == []
    ensures var d, after := sim.desk, B.Step(BidTwiceSetup(), sim);
            && after.tape == [] && !after.raised && after.desk.queue == d.queue[1..]
               && after.desk.history.placed == d.history.placed
            && after.desk.core == ApplyPlace(Geopolitics, d.core, d.queue[0].payload.order, d.queue[0].ts)
            && after.desk.history.rested
               == if Tracks(after.desk.core.book.orders, d.queue[0].payload.order.id)
                     && !Tracks(d.core.book.orders, d.queue[0].payload.order.id)
                  then d.history.rested + [d.queue[0].payload.order.id] else d.history.rested
  {
    hide ApplyPlace;
    assert B.ActionsTaken(BidTwiceSetup(), sim) == [];
  }

  /** Both bids have the same limit; the first rests with 5 of its 15 left, the second is then filled past it. */
  lemma OlderPassedOver()
    ensures var d, after := DeskAt(BidTwiceSetup(), EMPTY, [QUOTED], false, 2),
                DeskAt(BidTwiceSetup(), EMPTY, [QUOTED], false, 3).core;
            && Wf(EMPTY) && Ahead(d, 1, 2) && d.queue != [] && TakesOnArrival(d.core, d.queue[0], 2)
            && FilledSize(d.core.account.fills, 2) == 0.0 && FilledSize(after.account.fills, 2) == 5.0
            && Tracks(after.book.orders, 1) && FilledSize(after.account.fills, 1) == 10.0 < d.history.placed[1].size
  {
    hide B.Step, ApplyPlace;
    var start := B.Start(EMPTY, [QUOTED], false);
    var one := B.After(BidTwiceSetup(), start, 1);
    TwoBidsUnderWay();
    B.AfterSplits(BidTwiceSetup(), start, 1, 2);
    var two, three := B.Step(BidTwiceSetup(), one), B.Step(BidTwiceSetup(), B.Step(BidTwiceSetup(), one));
    SilentOnArrivals(one);
    BidTakes(one.desk.core, FIRST_BID);
    var rest := Resting(1, Bid, 0.55, 5.0, 0.0, 0.0, 0);
    assert two.desk.core.book == QuotedBook([rest]);
    assert two.desk.core.book.orders[0].id == 1;
    SilentOnArrivals(two);
    QuotedTop([rest]);
    BidTakes(two.desk.core, SECOND_BID);
    var f, g := TakerFill(FIRST_BID, 0.5, 10.0, 0, Geopolitics), TakerFill(SECOND_BID, 0.5, 5.0, 0, Geopolitics);
    assert two.desk.core.account.fills == [f] && three.desk.core.account.fills == [f, g];
    assert [f, g][..1] == [f] && [f][..0] == [];
    assert FilledSize([f], 1) == 10.0 && FilledSize([f], 2) == 0.0;
  }
}
