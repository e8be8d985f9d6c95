/**
 The smallest tapes on which the engines part: the backtester has the next market event on its queue,
 and numbered, before the strategy speaks, while the paper trader lets arrivals of the same
 millisecond land first. HarmfulTies and NumberedEngines say on which tapes this happens.
 */
module TieBreak {
  import opened OrderBook
  import opened Fees
  import opened TradingDesk
  import opened DeskInvariant
  import opened EventOrder
  import opened KillSwitches
  import opened HaltProtocol
  import opened EngineEquivalence
  import opened ConstantDelay
  import B = Backtest
  import P = Paper

  const BARE: Book := Book(1.0, map[], map[], [])
  const FIRST: MarketEvent := BookSnapshot(0, [], [])
  const SECOND: MarketEvent := LastTrade(0, 5.0, 3.0, Sell)
  const ORDER: Placement := Placement(1, Bid, 5.0, 1.0, true)

  /** Places one bid on the first market event it sees. */
  function PlaceOnce(placed: bool, view: View, e: Timed): Reply<bool> {
    if e.payload.Market? && !placed then Reply(true, [PlaceOrder(Bid, 5.0, 1.0, true)]) else Reply(placed, [])
  }

  function TieSetup(): B.Setup<bool> {
    B.Setup(Geopolitics, (n: nat, now: Millis) => Instant(n, now),
            Strategy((s: bool, v: View, e: Timed, n: nat) => PlaceOnce(s, v, e)))
  }

  lemma CalledOnce(d: Desk, e: Timed, n: nat)
    requires e.payload.Market? && d.now == 0 && d.nextId == 1
    ensures var (after, state, raised) := Called(TieSetup().strategy, TieSetup().latency, d, false, e, n);
            && after.queue == Enqueue(d.queue, Timed(0, PlaceArrival(ORDER)))
               && after.core == d.core.(pending := d.core.pending[1 := ORDER])
            && after.now == 0 && state && !raised
  {
    var a := PlaceOrder(Bid, 5.0, 1.0, true);
    assert Allowed([a]) == [a] by { assert [a][1..] == []; }
    assert PerformAll(TieSetup().latency, d, [a]) == Perform(TieSetup().latency, d, a) by { assert [a][..0] == []; }
  }

  /** Both events are on the queue when the order is placed, so the trade comes first and fills nothing. */
  lemma BacktestMissesTheTrade()
    ensures B.After(TieSetup(), B.Start(BARE, [FIRST, SECOND], false), 2).desk.core.account.fills == []
    ensures B.After(TieSetup(), B.Start(BARE, [FIRST, SECOND], false), 2).tape == []
  {
    var start := B.Start(BARE, [FIRST, SECOND], false);
    assert [FIRST, SECOND][1..] == [SECOND] && [SECOND][1..] == [];
    assert start.desk.queue == [OnTape(FIRST)] && start.tape == [SECOND];
    var one := B.Step(TieSetup(), start);
    assert B.Applied(TieSetup(), start).desk.queue == [OnTape(SECOND)];
    CalledOnce(B.Applied(TieSetup(), start).desk, OnTape(FIRST), B.HeadNumber(start));
    assert one.desk.queue == [OnTape(SECOND), Timed(0, PlaceArrival(ORDER))];
    assert one.desk.core.book.orders == [];
    var applied := B.Applied(TieSetup(), one);
    assert B.After(TieSetup(), start, 1) == one;
  }

  lemma TradeFillsTheOrder()
    ensures var o := NewOrder(BARE, 1, Bid, 5.0, 1.0, 0);
            |Traded(BARE.(orders := [o]), 5.0, 3.0, Sell, 0).fills| == 1
  {
    var o := NewOrder(BARE, 1, Bid, 5.0, 1.0, 0);
    var book := BARE.(orders := [o]);
    var t := PrintOf(book, 5.0, Sell, 0);
    assert Matches(o, t.side, t.price, t.tick);
    var h := HitOne(o, t, 3.0, map[]);
    assert InFront(o, t.levels, map[]) == 0.0 && |h.fills| == 1 && [o][1..] == [];
    assert Walk([o], t, 3.0, map[]).fills == h.fills + [];
  }

  /** The order arrives in the same millisecond, is drained first, and is filled by the trade. */
  lemma SecondEventFills(once: P.Trader<bool>)
    requires once.desk.queue == [Timed(0, PlaceArrival(ORDER))] && once.desk.now == 0
    requires once.desk.core == Core(BARE, once.desk.core.account, map[1 := ORDER]) && once.desk.core.account.fills == []
    ensures |P.MarketApplied(Geopolitics, P.Drained(Geopolitics, once, 0), SECOND).desk.core.account.fills| == 1
  {
    hide P.DrainOne, NewOrder;
    OrderIsDrained(once);
    var drained := P.DrainOne(Geopolitics, once);
    TradeFillsTheOrder();
    BookedAllFills(drained.desk.core.account, Traded(drained.desk.core.book, 5.0, 3.0, Sell, 0).fills, 5.0, 0,
                   Geopolitics);
  }

  lemma OrderIsDrained(once: P.Trader<bool>)
    requires once.desk.queue == [Timed(0, PlaceArrival(ORDER))] && once.desk.now == 0
    requires once.desk.core == Core(BARE, once.desk.core.account, map[1 := ORDER])
    ensures var drained := P.DrainOne(Geopolitics, once);
            && drained.desk.queue == [] && P.Drained(Geopolitics, once, 0) == drained
            && drained.desk.core.book == BARE.(orders := [NewOrder(BARE, 1, Bid, 5.0, 1.0, 0)])
            && drained.desk.core.account == once.desk.core.account
  {
  }

  lemma FirstEventPlaces(limits: Limits)
    requires limits.Valid()
    ensures var once := P.EventProcessed(Paired(TieSetup(), limits),
                                         P.Fresh(BARE, false).(switch := MessageNoted(ARMED, 0.0)), FIRST, 0.0);
            && once.desk.queue == [Timed(0, PlaceArrival(ORDER))] && once.desk.now == 0
            && once.desk.core == Core(BARE, once.desk.core.account, map[1 := ORDER])
               && once.desk.core.account.fills == []
            && once.state
  {
    var t := P.Fresh(BARE, false).(switch := MessageNoted(ARMED, 0.0));
    var applied := P.MarketApplied(Geopolitics, t, FIRST);
    assert P.Drained(Geopolitics, t, 0) == t && applied.desk.core == Core(BARE, FLAT, map[]);
    assert !P.SwitchTicked(limits, applied, 0.0).switch.halted;
    CalledOnce(applied.desk, OnTape(FIRST), 0);
  }

  lemma SecondEventKeepsFills(limits: Limits, t: P.Trader<bool>, nowS: real)
    requires limits.Valid() && t.state
    ensures P.EventProcessed(Paired(TieSetup(), limits), t, SECOND, nowS).desk.core.account
            == P.MarketApplied(Geopolitics, P.Drained(Geopolitics, t, 0), SECOND).desk.core.account
  {
    hide P.Drained, P.MarketApplied, Ticked;
    var applied := P.MarketApplied(Geopolitics, P.Drained(Geopolitics, t, 0), SECOND);
    StateKept(t);
    var ticked := P.SwitchTicked(limits, applied, nowS);
  }

  lemma StateKept(t: P.Trader<bool>)
    ensures P.MarketApplied(Geopolitics, P.Drained(Geopolitics, t, 0), SECOND).state == t.state
  {
    DrainKeepsCount(Geopolitics, t, 0);
  }

  /**
   On a tape whose second event shares the arrival's millisecond, a harmful pair, the engines differ:
   after both events the backtester has no fill and the paper trader, under any limits, has one.
   */
  lemma TiesMakeEnginesDiffer(limits: Limits)
    requires limits.Valid()
    ensures var tape := [FIRST, SECOND];
            var sim := B.After(TieSetup(), B.Start(BARE, tape, false), 2);
            var t := P.After(Paired(TieSetup(), limits), P.Fresh(BARE, false),
                             [P.MarketMessage(FIRST, 0.0, 0.0), P.MarketMessage(SECOND, 0.0, 0.0)]);
            && SortedTape(tape) && Harmful(tape, 0, 0, 1)
            && sim.tape == [] && sim.desk.core.account.fills == [] && |t.desk.core.account.fills| == 1
  {
    hide P.EventProcessed, B.Step;
    var psetup, start := Paired(TieSetup(), limits), P.Fresh(BARE, false);
    var first, second := P.MarketMessage(FIRST, 0.0, 0.0), P.MarketMessage(SECOND, 0.0, 0.0);
    BacktestMissesTheTrade();
    FirstEventPlaces(limits);
    assert [first, second][..1] == [first] && [first][..0] == [];
    assert P.After(psetup, start, []) == start;
    var once := P.After(psetup, start, [first]);
    assert once == P.Handle(psetup, start, first);
    var noted := once.(switch := MessageNoted(once.switch, 0.0));
    SecondEventFills(noted);
    SecondEventKeepsFills(limits, noted, 0.0);
    assert P.After(psetup, start, [first, second]) == P.Handle(psetup, once, second);
  }

  // ---------- without a tie, but by number ----------

  const LATER: MarketEvent := BookSnapshot(1, [], [])

  /** The second event is pulled off the tape before the strategy places its order, and so gets number 1. */
  lemma BacktestNumbersTheEventFirst()
    ensures var sim := B.After(TieSetup(), B.Start(BARE, [FIRST, LATER], false), 2);
            sim.desk.queue == [OnTape(LATER)] && sim.numbers == [1]
  {
    hide Apply;
    var start := B.Start(BARE, [FIRST, LATER], false);
    assert [FIRST, LATER][1..] == [LATER] && [LATER][1..] == [];
    var applied := B.Applied(TieSetup(), start);
    assert start.desk.queue == [OnTape(FIRST)] && start.numbers == [0] && start.tape == [LATER];
    assert applied.desk.queue == [OnTape(LATER)] && applied.numbers == [1] && applied.pushes == 2 && applied.tape == [];
    OneNumber(applied, OnTape(FIRST), 0);
    var one := B.Step(TieSetup(), start);
    assert one.desk.queue == [Timed(0, PlaceArrival(ORDER)), OnTape(LATER)];
    assert one.numbers == [2, 1];
    assert B.Applied(TieSetup(), one).desk.queue == [OnTape(LATER)] && B.Applied(TieSetup(), one).numbers == [1];
    assert B.ActionsTaken(TieSetup(), one) == [];
    assert B.After(TieSetup(), start, 1) == one;
  }

  lemma OneNumber(sim: B.Sim<bool>, e: Timed, n: nat)
    requires e.payload.Market? && sim.desk.now == 0 && sim.desk.nextId == 1
    ensures var (after, state, raised) := Called(TieSetup().strategy, TieSetup().latency, sim.desk, false, e, n);
            after.queue == Enqueue(sim.desk.queue, Timed(0, PlaceArrival(ORDER))) && !raised && state
    ensures NumbersAfter(TieSetup().latency, sim.desk, Allowed(PlaceOnce(false, ViewOf(sim.desk), e).actions),
                         sim.numbers, sim.pushes)
            == NumberIn(sim.desk.queue, sim.numbers, 0, sim.pushes)
  {
    var a := PlaceOrder(Bid, 5.0, 1.0, true);
    CalledOnce(sim.desk, e, n);
    assert Allowed([a]) == [a] by { assert [a][1..] == []; }
    assert [a][..0] == [];
  }

  /**
   With no tie anywhere the engines still number the second event differently: 1 in the backtester,
   which pulled it off the tape before the order was placed, 2 in the paper trader under any limits.
   */
  lemma NumbersMakeEnginesDiffer(limits: Limits)
    requires limits.Valid()
    ensures var sim := B.After(TieSetup(), B.Start(BARE, [FIRST, LATER], false), 2);
            var t := P.After(Paired(TieSetup(), limits), P.Fresh(BARE, false), [P.MarketMessage(FIRST, 0.0, 0.0)]);
            && sim.desk.queue == [OnTape(LATER)] && B.HeadNumber(sim) == 1
            && t.desk.queue == [Timed(0, PlaceArrival(ORDER))] && P.Drained(Geopolitics, t, 1).seqCounter == 2
  {
    hide P.EventProcessed, B.Step;
    BacktestNumbersTheEventFirst();
    FirstEventPlaces(limits);
    FirstEventCounts(limits);
    var psetup, start, first := Paired(TieSetup(), limits), P.Fresh(BARE, false), P.MarketMessage(FIRST, 0.0, 0.0);
    assert [first][..0] == [] && P.After(psetup, start, []) == start;
    var t := P.After(psetup, start, [first]);
    assert t == P.Handle(psetup, start, first);
    DrainKeepsCount(Geopolitics, t, 1);
  }

  lemma FirstEventCounts(limits: Limits)
    requires limits.Valid()
    ensures P.EventProcessed(Paired(TieSetup(), limits), P.Fresh(BARE, false).(switch := MessageNoted(ARMED, 0.0)),
                             FIRST, 0.0).seqCounter == 2
  {
    var t := P.Fresh(BARE, false).(switch := MessageNoted(ARMED, 0.0));
    var applied := P.MarketApplied(Geopolitics, t, FIRST);
    assert P.Drained(Geopolitics, t, 0) == t && applied.desk.core == Core(BARE, FLAT, map[]);
    assert !P.SwitchTicked(limits, applied, 0.0).switch.halted;
    var a := PlaceOrder(Bid, 5.0, 1.0, true);
    assert Allowed([a]) == [a] by { assert [a][1..] == []; }
  }
}
