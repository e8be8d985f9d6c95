/**
 Cancel-and-replace, said in prices, ids and what was placed and asked to be cancelled: a requote
 leaves a quote near its target alone, gives up any other, and places one exactly where none is kept.
 */
module KeptQuotes {
  import opened Prelude
  import opened OrderBook
  import opened BookInvariant
  import Fees
  import opened TradingDesk
  import opened DeskInvariant
  import opened Quoting
  import opened BacktestRuns
  import opened OneOrderPerSide
  import opened Withdrawal
  import opened StandingQuotes
  import opened KillSwitches
  import opened HaltProtocol
  import B = Backtest
  import P = Paper

  /** The remembered quote is less than half a tick from the target. */
  predicate OnTarget(q: Quote, target: Option<real>, tick: Tick) {
    && q.oid.Some? && q.price.Some? && target.Some?
    && q.price.value - target.value < tick / 2.0 && target.value - q.price.value < tick / 2.0
  }

  /** Orders of one side placed since. */
  ghost function NewOn(before: History, after: History, side: Side): set<OrderId> {
    set id | id in after.placed && id !in before.placed && after.placed[id].side == side
  }

  /** Orders of one side for which a cancel was asked since. */
  ghost function GivenUpOn(before: History, after: History, side: Side): set<OrderId> {
    set id | id in after.cancelRequested && id !in before.cancelRequested && id in before.placed
             && before.placed[id].side == side
  }

  /**
   What a requote does to one side that remembered `was` and wants `target`. On target: the quote is
   kept and nothing is placed or cancelled. Otherwise: a cancel is asked for what was remembered, if
   anything, and one order is placed at the target, if there is one, and remembered.
   */
  ghost predicate SideRequoted(before: History, after: History, side: Side, was: Quote, now: Quote,
                               target: Option<real>, size: real, tick: Tick) {
    if OnTarget(was, target, tick) then
      now == was && NewOn(before, after, side) == {} && GivenUpOn(before, after, side) == {}
    else
      && GivenUpOn(before, after, side) == (if was.oid.Some? then {was.oid.value} else {})
      && (target.None? ==> now == Quote(None, None) && NewOn(before, after, side) == {})
      && (target.Some? ==>
            && now.oid.Some? && now.price == target && NewOn(before, after, side) == {now.oid.value}
            && after.placed[now.oid.value] == Placement(now.oid.value, side, target.value, size, true))
  }

  /** Nothing else happens to orders, cancels and the latency draws: two sides, each with its own actions. */
  ghost predicate NothingElse(before: Desk, after: Desk) {
    && (forall id :: id in before.history.placed ==>
          id in after.history.placed && after.history.placed[id] == before.history.placed[id])
    && before.history.cancelRequested <= after.history.cancelRequested <= before.history.cancelRequested
          + GivenUpOn(before.history, after.history, Bid) + GivenUpOn(before.history, after.history, Ask)
    && after.draws == before.draws
                      + |NewOn(before.history, after.history, Bid)| + |GivenUpOn(before.history, after.history, Bid)|
                      + |NewOn(before.history, after.history, Ask)| + |GivenUpOn(before.history, after.history, Ask)|
  }

  /** Both sides of a callback from `before` to `after`, for the targets it was given. */
  ghost predicate CallRequotes<I>(before: Desk, after: Desk, was: QuoteState<I>, now: QuoteState<I>, targets: Targets,
                                  size: real, tick: Tick) {
    && SideRequoted(before.history, after.history, Bid, was.bid, now.bid, targets.0, size, tick)
    && SideRequoted(before.history, after.history, Ask, was.ask, now.ask, targets.1, size, tick)
    && NothingElse(before, after)
    && (NewOn(before.history, after.history, Bid) != {} && NewOn(before.history, after.history, Ask) != {} ==>
          BidFirst(now))
  }

  /** The bid was placed before the ask: it has the lower id. */
  predicate BidFirst<I>(now: QuoteState<I>) {
    now.bid.oid.Some? && now.ask.oid.Some? && now.bid.oid.value < now.ask.oid.value
  }

  // ---------- one side ----------

  lemma CancelSteps(latency: Latency, d: Desk, id: OrderId)
    ensures var after := PerformAll(latency, d, [CancelOrder(id)]);
            && after.history == d.history.(cancelRequested := d.history.cancelRequested + {id})
            && after.draws == d.draws + 1 && after.nextId == d.nextId
  {
    PerformOne(latency, d, CancelOrder(id));
  }

  lemma PlaceSteps(latency: Latency, d: Desk, side: Side, price: real, size: OrderSize)
    ensures var after := PerformAll(latency, d, [PlaceOrder(side, price, size, true)]);
            && after.history == d.history.(placed := d.history.placed[d.nextId := Placement(d.nextId, side, price, size,
                                                                                            true)])
            && after.draws == d.draws + 1 && after.nextId == d.nextId + 1
  {
    PerformOne(latency, d, PlaceOrder(side, price, size, true));
  }

  function Asked(q: Quote, target: Option<real>, tick: Tick): set<OrderId> {
    if q.oid.Some? && !OnTarget(q, target, tick) then {q.oid.value} else {}
  }

  predicate Places(q: Quote, target: Option<real>, tick: Tick) {
    target.Some? && !OnTarget(q, target, tick)
  }

  function WithPlaced(placed: map<OrderId, Placement>, id: OrderId, side: Side, target: Option<real>, size: real,
                      places: bool): map<OrderId, Placement> {
    if places && target.Some? then placed[id := Placement(id, side, target.value, size, true)] else placed
  }

  /** What is remembered of a side after a requote in which the next order gets `id`. */
  function NowRemembered(q: Quote, target: Option<real>, tick: Tick, id: OrderId): Quote {
    if OnTarget(q, target, tick) then q else if target.Some? then Quote(Some(id), target) else Quote(None, None)
  }

  /** The history, draws and next id that reconciling one side leaves. */
  ghost predicate SideStepped(d: Desk, after: Desk, side: Side, q: Quote, now: Quote, target: Option<real>, size: real,
                              tick: Tick) {
    && after.history.cancelRequested == d.history.cancelRequested + Asked(q, target, tick)
    && after.history.placed == WithPlaced(d.history.placed, d.nextId, side, target, size, Places(q, target, tick))
    && after.draws == d.draws + |Asked(q, target, tick)| + (if Places(q, target, tick) then 1 else 0)
    && after.nextId == d.nextId + (if Places(q, target, tick) then 1 else 0)
    && now == NowRemembered(q, target, tick, d.nextId)
  }

  lemma SideSteps(latency: Latency, d: Desk, side: Side, q: Quote, target: Option<real>, size: OrderSize, tick: Tick)
    requires q.oid.Some? <==> q.price.Some?
    ensures SideStepped(d, PerformAll(latency, d, ReconcileActions(q, side, target, size, tick)), side, q,
                        Reconciled(q, target, tick, d.nextId), target, size, tick)
  {
    hide Perform, PerformAll;
    PerformNothing(latency, d);
    var first := if MustCancel(q, target, tick) then [CancelOrder(q.oid.value)] else [];
    var second := if MustPlace(q, target, tick) then [PlaceOrder(side, target.value, size, true)] else [];
    var between := PerformAll(latency, d, first);
    PerformAllConcat(latency, d, first, second);
    PerformNothing(latency, between);
    if MustCancel(q, target, tick) { CancelSteps(latency, d, q.oid.value); }
    if MustPlace(q, target, tick) { PlaceSteps(latency, between, side, target.value, size); }
  }

  // ---------- both sides ----------

  lemma GivenUpIs(d: Desk, after: History, p: Quote, q: Quote, tick: Tick, bid: Option<real>, ask: Option<real>,
                  size: OrderSize)
    requires Remembered(d, Bid, p, q, size)
    requires after.cancelRequested == d.history.cancelRequested + Asked(p, bid, tick) + Asked(q, ask, tick)
    ensures GivenUpOn(d.history, after, Bid) == Asked(p, bid, tick)
    ensures GivenUpOn(d.history, after, Ask) == Asked(q, ask, tick)
  {
    hide Consistent, OnTarget;
  }

  lemma NewIs(before: History, after: History, id: OrderId, askId: OrderId, bid: Option<real>, ask: Option<real>,
              size: real, placesBid: bool, placesAsk: bool)
    requires (placesBid ==> bid.Some?) && (placesAsk ==> ask.Some?)
    requires id !in before.placed && id + 1 !in before.placed && askId == if placesBid then id + 1 else id
    requires after.placed == WithPlaced(WithPlaced(before.placed, id, Bid, bid, size, placesBid), askId, Ask, ask, size,
                                        placesAsk)
    ensures NewOn(before, after, Bid) == (if placesBid then {id} else {})
    ensures NewOn(before, after, Ask) == (if placesAsk then {askId} else {})
    ensures placesBid ==> id in after.placed && after.placed[id] == Placement(id, Bid, bid.value, size, true)
    ensures placesAsk ==> askId in after.placed && after.placed[askId] == Placement(askId, Ask, ask.value, size, true)
    ensures forall k :: k in before.placed ==> k in after.placed && after.placed[k] == before.placed[k]
  {
  }

  lemma SideFollows(before: History, after: History, side: Side, q: Quote, target: Option<real>, size: real, tick: Tick,
                    id: OrderId)
    requires GivenUpOn(before, after, side) == Asked(q, target, tick)
    requires NewOn(before, after, side) == if Places(q, target, tick) then {id} else {}
    requires Places(q, target, tick) ==>
               id in after.placed && after.placed[id] == Placement(id, side, target.value, size, true)
    ensures SideRequoted(before, after, side, q, NowRemembered(q, target, tick, id), target, size, tick)
  {
    hide OnTarget, NewOn, GivenUpOn;
  }

  lemma SidesFollow(d: Desk, between: Desk, after: Desk, p: Quote, q: Quote, p': Quote, q': Quote, bid: Option<real>,
                    ask: Option<real>, size: OrderSize, tick: Tick)
    requires Remembered(d, Bid, p, q, size)
    requires SideStepped(d, between, Bid, p, p', bid, size, tick)
    requires SideStepped(between, after, Ask, q, q', ask, size, tick)
    ensures SideRequoted(d.history, after.history, Bid, p, p', bid, size, tick)
    ensures SideRequoted(d.history, after.history, Ask, q, q', ask, size, tick)
    ensures NothingElse(d, after)
  {
    hide OnTarget, Consistent, CancelsAsked, AsPlaced, SideRequoted, NewOn, GivenUpOn, WithPlaced;
    NextIdsAreFree(d);
    GivenUpIs(d, after.history, p, q, tick, bid, ask, size);
    NewIs(d.history, after.history, d.nextId, between.nextId, bid, ask, size, Places(p, bid, tick),
          Places(q, ask, tick));
    SideFollows(d.history, after.history, Bid, p, bid, size, tick, d.nextId);
    SideFollows(d.history, after.history, Ask, q, ask, size, tick, between.nextId);
  }

  /** A requote of both sides on a desk that has the remembered quotes. */
  lemma RequotesBoth<I>(latency: Latency, d: Desk, quoter: Quoter<I>, state: QuoteState<I>, e: Timed)
    requires Remembered(d, Bid, state.bid, state.ask, quoter.size) && Requotes(quoter, e)
    ensures var reply := OnEvent(quoter, state, ViewOf(d), e);
            CallRequotes(d, PerformAll(latency, d, reply.actions), state, reply.state,
                         TargetsFor(quoter, state, ViewOf(d), e), quoter.size, d.core.book.tick)
  {
    PricesRemembered(d, state.bid, state.ask, quoter.size);
    hide PerformAll, ReconcileActions, Reconciled, Remembered, SideRequoted, NothingElse, AskId, SideStepped;
    var (bid, ask) := TargetsFor(quoter, state, ViewOf(d), e);
    var tick, size := d.core.book.tick, quoter.size;
    var first := ReconcileActions(state.bid, Bid, bid, size, tick);
    var second := ReconcileActions(state.ask, Ask, ask, size, tick);
    ActionsAccepted(state.bid, Bid, bid, size, tick);
    ActionsAccepted(state.ask, Ask, ask, size, tick);
    var between := PerformAll(latency, d, first);
    PerformAllConcat(latency, d, first, second);
    SideSteps(latency, d, Bid, state.bid, bid, size, tick);
    SideSteps(latency, between, Ask, state.ask, ask, size, tick);
    AskIdIs(latency, d, state.bid, state.ask, bid, size);
    SidesFollow(d, between, PerformAll(latency, between, second), state.bid, state.ask,
                Reconciled(state.bid, bid, tick, d.nextId), Reconciled(state.ask, ask, tick, between.nextId), bid, ask,
                size, tick);
  }

  lemma PricesRemembered(d: Desk, p: Quote, q: Quote, size: OrderSize)
    requires Remembered(d, Bid, p, q, size)
    ensures (p.oid.Some? <==> p.price.Some?) && (q.oid.Some? <==> q.price.Some?)
  {
  }

  lemma ActionsAccepted(q: Quote, side: Side, target: Option<real>, size: OrderSize, tick: Tick)
    ensures var actions := ReconcileActions(q, side, target, size, tick);
            forall i :: 0 <= i < |actions| ==> Acceptable(actions[i])
  {
  }

  lemma NextIdsAreFree(d: Desk)
    requires Consistent(d)
    ensures d.nextId !in d.history.placed && d.nextId + 1 !in d.history.placed
  {
  }

  /** The ask placement gets the id after the bid's, if there was one. */
  lemma AskIdIs(latency: Latency, d: Desk, q: Quote, other: Quote, target: Option<real>, size: OrderSize)
    requires Remembered(d, Bid, q, other, size)
    ensures AskId(q, target, ViewOf(d))
            == PerformAll(latency, d, ReconcileActions(q, Bid, target, size, d.core.book.tick)).nextId
  {
    ReconcileKeepsRemembered(latency, d, Bid, q, other, target, size, d.core.book.tick);
  }

  // ---------- the theorems ----------

  /** Orders placed, cancels asked and latency draws are those of the other desk. */
  ghost predicate SameRequests(a: Desk, b: Desk) {
    a.history.placed == b.history.placed && a.history.cancelRequested == b.history.cancelRequested && a.draws == b.draws
  }

  lemma SameRequestsRequote<I>(before: Desk, d: Desk, performed: Desk, after: Desk, was: QuoteState<I>,
                               now: QuoteState<I>, targets: Targets, size: real, tick: Tick)
    requires SameRequests(before, d) && SameRequests(performed, after)
    requires CallRequotes(d, performed, was, now, targets, size, tick)
    ensures CallRequotes(before, after, was, now, targets, size, tick)
  {
    hide OnTarget;
    assert forall side :: NewOn(before.history, after.history, side) == NewOn(d.history, performed.history, side);
    assert forall side :: GivenUpOn(before.history, after.history, side) == GivenUpOn(d.history, performed.history,
        side);
  }

  lemma AppliedSameRequests<S>(setup: B.Setup<S>, sim: B.Sim<S>)
    requires !B.Done(sim)
    ensures SameRequests(sim.desk, B.Applied(setup, sim).desk) && B.Applied(setup, sim).state == sim.state
  {
    hide Apply;
  }

  /** One callback of a quoting strategy on a desk that has the remembered quotes. */
  lemma CalledRequotes<I>(latency: Latency, d: Desk, quoter: Quoter<I>, state: QuoteState<I>, e: Timed, n: nat)
    requires Remembered(d, Bid, state.bid, state.ask, quoter.size)
    ensures var (after, later, raised) := Called(AsStrategy(quoter), latency, d, state, e, n);
            && after.core.book == d.core.book
            && (if Requotes(quoter, e)
                then CallRequotes(d, after, state, later, TargetsFor(quoter, state, ViewOf(d), e), quoter.size,
                                  d.core.book.tick)
                else later.bid == state.bid && later.ask == state.ask && SameRequests(d, after))
  {
    hide PerformAll, SideRequoted, NothingElse, Remembered;
    QuoterIsWellBehaved(quoter, state, ViewOf(d), e);
    var reply := OnEvent(quoter, state, ViewOf(d), e);
    PerformAllKeepsCore(latency, d, reply.actions);
    PerformNothing(latency, d);
    if Requotes(quoter, e) {
      RequotesBoth(latency, d, quoter, state, e);
      SameRequestsRequote(d, d, PerformAll(latency, d, reply.actions),
                          Called(AsStrategy(quoter), latency, d, state, e, n).0, state, reply.state,
                          TargetsFor(quoter, state, ViewOf(d), e), quoter.size, d.core.book.tick);
    }
  }

  /**
   Every step of a backtest of a quoting strategy, on any tape and with any latency. At a requote each
   side is left alone if its quote is near the target, and otherwise given up and replaced; at any
   other event nothing is placed or cancelled.
   */
  lemma StepRequotes<I>(setup: B.Setup<QuoteState<I>>, quoter: Quoter<I>, book: Book, tape: seq<MarketEvent>, inner: I,
                        n: nat)
    requires Wf(book) && book.orders == [] && setup.strategy == AsStrategy(quoter)
    requires !B.Done(B.After(setup, B.Start(book, tape, Initial(inner)), n))
    ensures var start := B.Start(book, tape, Initial(inner));
            var sim, after := B.After(setup, start, n), B.After(setup, start, n + 1);
            if Requotes(quoter, sim.desk.queue[0])
            then CallRequotes(sim.desk, after.desk, sim.state, after.state, TargetsAt(setup, quoter, sim), quoter.size,
                              after.desk.core.book.tick)
            else after.state.bid == sim.state.bid && after.state.ask == sim.state.ask
                 && SameRequests(sim.desk, after.desk)
  {
    hide B.Applied, Called, CallRequotes, Requotes, Remembered, TargetsFor, B.Start;
    var sim := B.After(setup, B.Start(book, tape, Initial(inner)), n);
    RunRemembers(setup, quoter, book, tape, inner, n);
    AppliedKeepsRemembered(setup, sim, quoter.size);
    AppliedSameRequests(setup, sim);
    var d, e := B.Applied(setup, sim).desk, sim.desk.queue[0];
    CalledRequotes(setup.latency, d, quoter, sim.state, e, B.HeadNumber(sim));
    var after := Called(setup.strategy, setup.latency, d, sim.state, e, B.HeadNumber(sim));
    if Requotes(quoter, e) {
      SameRequestsRequote(sim.desk, d, after.0, after.0, sim.state, after.1, TargetsAt(setup, quoter, sim), quoter.size,
                          d.core.book.tick);
    }
  }

  lemma {:induction false} DrainedSameRequests<S>(category: Fees.FeeCategory, t: P.Trader<S>, ts: Millis)
    ensures SameRequests(t.desk, P.Drained(category, t, ts).desk) && P.Drained(category, t, ts).state == t.state
    decreases |t.desk.queue|
  {
    hide Apply, P.IdsAfter;
    if t.desk.queue != [] && t.desk.queue[0].ts <= ts { DrainedSameRequests(category, P.DrainOne(category, t), ts); }
  }

  /** The targets of the trader's callback on a market event. */
  function TraderTargets<I>(setup: P.PaperSetup<QuoteState<I>>, quoter: Quoter<I>, t: P.Trader<QuoteState<I>>,
                            event: MarketEvent): Targets {
    var marked := P.MarketApplied(setup.category, P.Drained(setup.category, t, event.ts), event);
    TargetsFor(quoter, t.state, ViewOf(marked.desk), OnTape(event))
  }

  lemma EventRequotes<I>(setup: P.PaperSetup<QuoteState<I>>, quoter: Quoter<I>, t: P.Trader<QuoteState<I>>,
                         event: MarketEvent, nowS: real)
    requires setup.limits.Valid() && setup.strategy == AsStrategy(quoter)
    requires TraderRemembers(t, quoter.size) && Trading(t) && !P.EventProcessed(setup, t, event, nowS).switch.halted
    ensures var after := P.EventProcessed(setup, t, event, nowS);
            if Requotes(quoter, OnTape(event))
            then CallRequotes(t.desk, after.desk, t.state, after.state, TraderTargets(setup, quoter, t, event),
                              quoter.size, after.desk.core.book.tick)
            else after.state.bid == t.state.bid && after.state.ask == t.state.ask && SameRequests(t.desk, after.desk)
  {
    hide Trading, Remembered, P.Drained, Ticked, Called, CallRequotes, Requotes, TargetsFor, Apply, P.IdsAfter;
    DrainedKeepsRemembered(setup.category, t, event.ts, quoter.size);
    DrainedSameRequests(setup.category, t, event.ts);
    var drained := P.Drained(setup.category, t, event.ts);
    MarketKeepsRemembered(setup.category, drained, event, quoter.size);
    var ticked := P.SwitchTicked(setup.limits, P.MarketApplied(setup.category, drained, event), nowS);
    CalledRequotes(setup.latency, ticked.desk, quoter, ticked.state, OnTape(event), drained.seqCounter);
    var called := Called(setup.strategy, setup.latency, ticked.desk, ticked.state, OnTape(event), drained.seqCounter);
    assert SameRequests(t.desk, ticked.desk);
    if Requotes(quoter, OnTape(event)) {
      SameRequestsRequote(t.desk, ticked.desk, called.0, called.0, t.state, called.1,
                          TraderTargets(setup, quoter, t, event), quoter.size, ticked.desk.core.book.tick);
    }
  }

  /** The same for every market message of a paper run that has not halted after it. */
  lemma TraderRequotes<I>(setup: P.PaperSetup<QuoteState<I>>, quoter: Quoter<I>, book: Book, inner: I,
                          inputs: seq<P.Input>, event: MarketEvent, receivedS: real, tickedS: real)
    requires setup.limits.Valid() && Wf(book) && book.orders == [] && setup.strategy == AsStrategy(quoter)
    requires var t := P.After(setup, P.Fresh(book, Initial(inner)), inputs);
             && !t.switch.halted && !P.Handle(setup, t, P.MarketMessage(event, receivedS, tickedS)).switch.halted
    ensures var t := P.After(setup, P.Fresh(book, Initial(inner)), inputs);
            var after := P.Handle(setup, t, P.MarketMessage(event, receivedS, tickedS));
            if Requotes(quoter, OnTape(event))
            then CallRequotes(t.desk, after.desk, t.state, after.state, TraderTargets(setup, quoter, t, event),
                              quoter.size, after.desk.core.book.tick)
            else after.state.bid == t.state.bid && after.state.ask == t.state.ask && SameRequests(t.desk, after.desk)
  {
    hide P.EventProcessed, P.After, P.Fresh, Remembered, Consistent, AllScheduled, IdsMatch, Clean, CallRequotes,
         Requotes,
         TargetsFor, P.MarketApplied, P.Drained;
    var t := P.After(setup, P.Fresh(book, Initial(inner)), inputs);
    AlwaysAtRest(setup, book, Initial(inner), inputs);
    TraderRunRemembers(setup, quoter, book, inner, inputs);
    var s := MessageNoted(t.switch, receivedS);
    EventRequotes(setup, quoter, t.(switch := s), event, tickedS);
    DrainIgnoresSwitch(setup.category, t, s, event.ts);
    MarketIgnoresSwitch(setup.category, P.Drained(setup.category, t, event.ts), s, event);
  }

  lemma MarketIgnoresSwitch<S>(category: Fees.FeeCategory, t: P.Trader<S>, s: Switch, event: MarketEvent)
    ensures P.MarketApplied(category, t.(switch := s), event).desk == P.MarketApplied(category, t, event).desk
  {
  }
}
