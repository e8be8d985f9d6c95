/**
 What "always quoting at the target" comes to. A quoting strategy is never told of fills, so a quote
 that was filled is not replaced before its target moves: on either engine, whatever the latency, the
 quote the strategy remembers is out there exactly as long as something of it is left to fill.
 */
module StandingQuotes {
  import opened Prelude
  import opened OrderBook
  import opened BookInvariant
  import Fees
  import opened TradingDesk
  import opened DeskInvariant
  import opened EventOrder
  import opened Quoting
  import opened BacktestRuns
  import opened OneOrderPerSide
  import opened Withdrawal
  import opened KillSwitches
  import opened HaltProtocol
  import B = Backtest
  import P = Paper

  // ---------- the invariant ----------

  /** Only orders that the strategy asked to cancel are cancelled or have a cancel under way. */
  ghost predicate CancelsAsked(d: Desk) {
    && d.history.cancelled <= d.history.cancelRequested <= d.history.placed.Keys
    && forall x :: x in d.queue && x.payload.CancelArrival? ==> x.payload.id in d.history.cancelRequested
  }

  /** The quote is an order placed at the remembered price, and no cancel was asked for it. */
  ghost predicate AsPlaced(q: Quote, h: History, side: Side, size: OrderSize) {
    if q.oid.None? then q.price.None?
    else
      && q.price.Some? && q.oid.value in h.placed && q.oid.value !in h.cancelRequested
      && h.placed[q.oid.value] == Placement(q.oid.value, side, q.price.value, size, true)
  }

  /** A desk on which the strategy remembers `q` on one side and `other` on the other. */
  ghost predicate Remembered(d: Desk, side: Side, q: Quote, other: Quote, size: OrderSize) {
    && Consistent(d) && CancelsAsked(d)
    && AsPlaced(q, d.history, side, size) && AsPlaced(other, d.history, Other(side), size)
  }

  // ---------- actions ----------

  lemma CancelKeepsRemembered(latency: Latency, d: Desk, side: Side, q: Quote, other: Quote, size: OrderSize)
    requires Remembered(d, side, q, other, size) && q.oid.Some?
    ensures Remembered(Perform(latency, d, CancelOrder(q.oid.value)), side, NO_QUOTE, other, size)
  {
    hide Sound;
    var a := CancelOrder(q.oid.value);
    PerformKeepsConsistent(latency, d, a);
    EnqueuedMembers(d.queue, ActionEvent(latency, d, a));
  }

  lemma PlaceKeepsRemembered(latency: Latency, d: Desk, side: Side, q: Quote, other: Quote, price: real,
                             size: OrderSize)
    requires Remembered(d, side, q, other, size)
    ensures Remembered(Perform(latency, d, PlaceOrder(side, price, size, true)), side,
                       Quote(Some(d.nextId), Some(price)), other, size)
  {
    hide Sound;
    var a := PlaceOrder(side, price, size, true);
    FreshIdUnused(d);
    PerformKeepsConsistent(latency, d, a);
    EnqueuedMembers(d.queue, ActionEvent(latency, d, a));
  }

  /** Reconciling one side leaves the quote the strategy remembers, and the other side alone. */
  lemma ReconcileKeepsRemembered(latency: Latency, d: Desk, side: Side, q: Quote, other: Quote, target: Option<real>,
                                 size: OrderSize, tick: Tick)
    requires Remembered(d, side, q, other, size)
    ensures var after := PerformAll(latency, d, ReconcileActions(q, side, target, size, tick));
            && Remembered(after, side, Reconciled(q, target, tick, d.nextId), other, size)
            && after.nextId == (if MustPlace(q, target, tick) then d.nextId + 1 else d.nextId)
  {
    hide Perform, PerformAll, Remembered;
    PerformNothing(latency, d);
    var first := if MustCancel(q, target, tick) then [CancelOrder(q.oid.value)] else [];
    var second := if MustPlace(q, target, tick) then [PlaceOrder(side, target.value, size, true)] else [];
    var between := PerformAll(latency, d, first);
    PerformAllConcat(latency, d, first, second);
    if MustCancel(q, target, tick) {
      PerformOne(latency, d, CancelOrder(q.oid.value));
      CancelKeepsRemembered(latency, d, side, q, other, size);
    }
    KeepsNextId(latency, d, first);
    PerformNothing(latency, between);
    if MustPlace(q, target, tick) {
      PerformOne(latency, between, PlaceOrder(side, target.value, size, true));
      PlaceKeepsRemembered(latency, between, side, if MustCancel(q, target, tick) then NO_QUOTE else q, other,
                           target.value, size);
    }
    KeepsNextId(latency, between, second);
  }

  lemma SidesSwap(d: Desk, side: Side, q: Quote, other: Quote, size: OrderSize)
    requires Remembered(d, side, q, other, size)
    ensures Remembered(d, Other(side), other, q, size)
  {
  }

  /** A callback: bid first, then ask. */
  lemma RequoteKeepsRemembered<I>(latency: Latency, d: Desk, quoter: Quoter<I>, state: QuoteState<I>, e: Timed)
    requires Remembered(d, Bid, state.bid, state.ask, quoter.size)
    ensures var reply := OnEvent(quoter, state, ViewOf(d), e);
            Remembered(PerformAll(latency, d, reply.actions), Bid, reply.state.bid, reply.state.ask, quoter.size)
  {
    hide PerformAll, Remembered;
    if Requotes(quoter, e) {
      var (bid, ask) := TargetsFor(quoter, state, ViewOf(d), e);
      var tick := d.core.book.tick;
      var first := ReconcileActions(state.bid, Bid, bid, quoter.size, tick);
      var second := ReconcileActions(state.ask, Ask, ask, quoter.size, tick);
      var between, placed := PerformAll(latency, d, first), Reconciled(state.bid, bid, tick, d.nextId);
      PerformAllConcat(latency, d, first, second);
      ReconcileKeepsRemembered(latency, d, Bid, state.bid, state.ask, bid, quoter.size, tick);
      SidesSwap(between, Bid, placed, state.ask, quoter.size);
      ReconcileKeepsRemembered(latency, between, Ask, state.ask, placed, ask, quoter.size, tick);
      SidesSwap(PerformAll(latency, between, second), Ask, Reconciled(state.ask, ask, tick, between.nextId), placed,
                quoter.size);
    } else {
      PerformNothing(latency, d);
    }
  }

  lemma CalledKeepsRemembered<I>(latency: Latency, d: Desk, quoter: Quoter<I>, state: QuoteState<I>, e: Timed, n: nat)
    requires Remembered(d, Bid, state.bid, state.ask, quoter.size)
    ensures var (after, later, raised) := Called(AsStrategy(quoter), latency, d, state, e, n);
            Remembered(after, Bid, later.bid, later.ask, quoter.size) && !raised
  {
    hide PerformAll, OnEvent;
    RequoteKeepsRemembered(latency, d, quoter, state, e);
    QuoterIsWellBehaved(quoter, state, ViewOf(d), e);
  }

  // ---------- events ----------

  /** Delivering an event touches neither what was placed nor what was asked to be cancelled. */
  lemma DeliveredKeepsRemembered(category: Fees.FeeCategory, d: Desk, e: Timed, side: Side, q: Quote, other: Quote,
                                 size: OrderSize)
    requires Remembered(d, side, q, other, size) && Consistent(Delivered(category, d, e))
    requires e.payload.CancelArrival? ==> e.payload.id in d.history.cancelRequested
    ensures Remembered(Delivered(category, d, e), side, q, other, size)
  {
    hide Apply, Consistent;
  }

  lemma HeadKeepsRemembered(category: Fees.FeeCategory, d: Desk, side: Side, q: Quote, other: Quote, size: OrderSize)
    requires Remembered(d, side, q, other, size) && d.queue != []
    ensures Remembered(DeliverHead(category, d), side, q, other, size)
  {
    hide Apply, Sound;
    DeliverHeadKeeps(category, d);
    var popped := d.(queue := d.queue[1..]);
    assert d.queue[0] in d.queue && forall x :: x in popped.queue ==> x in d.queue;
    assert Remembered(popped, side, q, other, size);
    DeliveredKeepsRemembered(category, popped, d.queue[0], side, q, other, size);
  }

  // ---------- the backtester ----------

  ghost predicate SimRemembers<I>(sim: B.Sim<QuoteState<I>>, size: OrderSize) {
    Remembered(sim.desk, Bid, sim.state.bid, sim.state.ask, size)
  }

  lemma RefillKeepsRemembered<I>(sim: B.Sim<QuoteState<I>>, size: OrderSize)
    requires SimRemembers(sim, size)
    ensures SimRemembers(B.Refilled(sim), size)
  {
    hide Sound;
    RefillKeeps(sim);
    if sim.tape != [] { EnqueuedMembers(sim.desk.queue, OnTape(sim.tape[0])); }
  }

  lemma AppliedKeepsRemembered<I>(setup: B.Setup<QuoteState<I>>, sim: B.Sim<QuoteState<I>>, size: OrderSize)
    requires sim.desk.queue != [] && SimRemembers(sim, size)
    ensures Remembered(B.Applied(setup, sim).desk, Bid, sim.state.bid, sim.state.ask, size)
  {
    hide Remembered, DeliverHead, B.Refilled;
    HeadKeepsRemembered(setup.category, sim.desk, Bid, sim.state.bid, sim.state.ask, size);
    RefillKeepsRemembered(sim.(desk := DeliverHead(setup.category, sim.desk),
                               numbers := if sim.numbers == [] then [] else sim.numbers[1..]), size);
    RefilledState(setup, sim);
  }

  lemma StepKeepsRemembered<I>(setup: B.Setup<QuoteState<I>>, quoter: Quoter<I>, sim: B.Sim<QuoteState<I>>)
    requires setup.strategy == AsStrategy(quoter) && SimRemembers(sim, quoter.size)
    ensures SimRemembers(B.Step(setup, sim), quoter.size)
  {
    hide Remembered, B.Applied, Called;
    if !B.Done(sim) {
      AppliedKeepsRemembered(setup, sim, quoter.size);
      CalledKeepsRemembered(setup.latency, B.Applied(setup, sim).desk, quoter, sim.state, sim.desk.queue[0],
                            B.HeadNumber(sim));
    }
  }

  lemma RefilledState<S>(setup: B.Setup<S>, sim: B.Sim<S>)
    requires sim.desk.queue != []
    ensures B.Applied(setup, sim).state == sim.state
  {
  }

  lemma {:induction false} RunRemembers<I>(setup: B.Setup<QuoteState<I>>, quoter: Quoter<I>, book: Book,
                                           tape: seq<MarketEvent>, inner: I, n: nat)
    requires Wf(book) && book.orders == [] && setup.strategy == AsStrategy(quoter)
    ensures SimRemembers(B.After(setup, B.Start(book, tape, Initial(inner)), n), quoter.size)
  {
    hide B.Step, B.Refilled;
    if n == 0 {
      RefillKeepsRemembered(B.Unprimed(book, tape, Initial(inner)), quoter.size);
    } else {
      hide SimRemembers;
      RunRemembers(setup, quoter, book, tape, inner, n - 1);
      StepKeepsRemembered(setup, quoter, B.After(setup, B.Start(book, tape, Initial(inner)), n - 1));
    }
  }

  // ---------- the theorems ----------

  /** On its way to the book or in it. */
  predicate Standing(core: Core, id: OrderId) {
    id in core.pending || Tracks(core.book.orders, id)
  }

  /** What is remembered is an order of the remembered price, and stands as long as it is not filled completely. */
  ghost predicate StandsIffUnfilled(d: Desk, q: Quote, side: Side, size: OrderSize) {
    q.oid.Some? ==>
      && q.price.Some? && q.oid.value in d.history.placed
      && d.history.placed[q.oid.value] == Placement(q.oid.value, side, q.price.value, size, true)
      && (Standing(d.core, q.oid.value) <==> FilledSize(d.core.account.fills, q.oid.value) < size)
  }

  lemma RememberedStandsIff(d: Desk, side: Side, q: Quote, other: Quote, size: OrderSize)
    requires Remembered(d, side, q, other, size) && (q.oid.Some? && q.oid.value in d.history.placed ==>
                                                       Lifecycle(d, q.oid.value))
    ensures StandsIffUnfilled(d, q, side, size)
  {
    hide Consistent, FilledSize;
  }

  /**
   In every state of a backtest of a quoting strategy, on any tape and with any latency, the quote it
   remembers on a side is an order of the remembered price and the strategy's size, and it is under way
   or in the book if and only if it has not been filled completely.
   */
  lemma RememberedQuoteStandsIff<I>(setup: B.Setup<QuoteState<I>>, quoter: Quoter<I>, book: Book,
                                    tape: seq<MarketEvent>, inner: I, n: nat, side: Side)
    requires Wf(book) && book.orders == [] && setup.strategy == AsStrategy(quoter)
    ensures var sim := B.After(setup, B.Start(book, tape, Initial(inner)), n);
            StandsIffUnfilled(sim.desk, QuoteOn(sim.state, side), side, quoter.size)
  {
    hide B.Step, B.Start, B.After, Lifecycle, StandsIffUnfilled, Remembered;
    var sim := B.After(setup, B.Start(book, tape, Initial(inner)), n);
    var q, other := QuoteOn(sim.state, side), QuoteOn(sim.state, Other(side));
    RunRemembers(setup, quoter, book, tape, inner, n);
    if side.Ask? { SidesSwap(sim.desk, Bid, other, q, quoter.size); }
    if q.oid.Some? { EveryOrderAccountedFor(setup, book, tape, Initial(inner), n, q.oid.value); }
    RememberedStandsIff(sim.desk, side, q, other, quoter.size);
  }

  function TargetOn(targets: Targets, side: Side): Option<real> {
    if side.Bid? then targets.0 else targets.1
  }

  lemma RequotedOn<I>(setup: B.Setup<QuoteState<I>>, quoter: Quoter<I>, sim: B.Sim<QuoteState<I>>, side: Side)
    requires setup.strategy == AsStrategy(quoter) && !B.Done(sim) && Requotes(quoter, sim.desk.queue[0])
    ensures var q, target := QuoteOn(B.Step(setup, sim).state, side), TargetOn(TargetsAt(setup, quoter, sim), side);
            && (q.oid.Some? <==> target.Some?)
            && (q.oid.Some? && q.price.Some? ==>
                  SamePrice(q.price, target, B.Applied(setup, sim).desk.core.book.tick))
  {
    hide B.Step, B.Applied;
    StepState(setup, quoter, sim);
  }

  /**
   Every requote of a quoting strategy: a side without a target is left without a quote, and a side
   with one has a remembered quote of the full size within half a tick of it, under way or in the book
   if and only if it has not been filled completely - "always quoting at the target", but for that.
   */
  lemma QuotingAtTargetIff<I>(setup: B.Setup<QuoteState<I>>, quoter: Quoter<I>, book: Book, tape: seq<MarketEvent>,
                              inner: I, n: nat, side: Side)
    requires Wf(book) && book.orders == [] && setup.strategy == AsStrategy(quoter)
    requires var sim := B.After(setup, B.Start(book, tape, Initial(inner)), n);
             !B.Done(sim) && Requotes(quoter, sim.desk.queue[0])
    ensures var start := B.Start(book, tape, Initial(inner));
            var sim, after := B.After(setup, start, n), B.After(setup, start, n + 1);
            var target, q := TargetOn(TargetsAt(setup, quoter, sim), side), QuoteOn(after.state, side);
            && (q.oid.Some? <==> target.Some?)
            && (target.Some? ==>
                  && q.oid.value in after.desk.history.placed
                  && var order := after.desk.history.placed[q.oid.value];
                     && order.side == side && order.size == quoter.size
                     && Abs(order.price - target.value) < B.Applied(setup, sim).desk.core.book.tick / 2.0
                     && (Standing(after.desk.core, q.oid.value)
                         <==> FilledSize(after.desk.core.account.fills, q.oid.value) < order.size))
  {
    hide B.Step, B.Applied, Standing, FilledSize, TargetsAt;
    RequotedOn(setup, quoter, B.After(setup, B.Start(book, tape, Initial(inner)), n), side);
    RememberedQuoteStandsIff(setup, quoter, book, tape, inner, n + 1, side);
  }

  // ---------- the paper trader ----------

  ghost predicate TraderRemembers<I>(t: P.Trader<QuoteState<I>>, size: OrderSize) {
    Remembered(t.desk, Bid, t.state.bid, t.state.ask, size)
  }

  lemma DrainOneKeepsRemembered<I>(category: Fees.FeeCategory, t: P.Trader<QuoteState<I>>, size: OrderSize)
    requires TraderRemembers(t, size) && Trading(t) && t.desk.queue != []
    ensures TraderRemembers(P.DrainOne(category, t), size)
  {
    hide DeliverHead, P.IdsAfter, Sound;
    DueKeeps(t.desk);
    var due := P.Due(t.desk);
    forall x | x in due.queue && x.payload.CancelArrival? ensures x.payload.id in due.history.cancelRequested {
      var i :| 0 <= i < |due.queue| && due.queue[i] == x;
      assert t.desk.queue[i].payload == x.payload;
    }
    HeadKeepsRemembered(category, due, Bid, t.state.bid, t.state.ask, size);
  }

  lemma {:induction false} DrainedKeepsRemembered<I>(category: Fees.FeeCategory, t: P.Trader<QuoteState<I>>, ts: Millis,
                                                     size: OrderSize)
    requires TraderRemembers(t, size) && Trading(t)
    ensures TraderRemembers(P.Drained(category, t, ts), size) && Trading(P.Drained(category, t, ts))
    decreases |t.desk.queue|
  {
    hide Trading, TraderRemembers;
    if t.desk.queue != [] && t.desk.queue[0].ts <= ts {
      DrainOneKeepsRemembered(category, t, size);
      DrainOneKeeps(category, t);
      DrainedKeepsRemembered(category, P.DrainOne(category, t), ts, size);
    }
  }

  lemma MarketKeepsRemembered<I>(category: Fees.FeeCategory, t: P.Trader<QuoteState<I>>, event: MarketEvent,
                                 size: OrderSize)
    requires TraderRemembers(t, size) && Trading(t)
    ensures TraderRemembers(P.MarketApplied(category, t, event), size)
  {
    hide Apply, P.IdsAfter, Sound;
    DeliverKeepsConsistent(category, t.desk, OnTape(event));
    DeliveredKeepsRemembered(category, t.desk, OnTape(event), Bid, t.state.bid, t.state.ask, size);
  }

  lemma EventKeepsRemembered<I>(setup: P.PaperSetup<QuoteState<I>>, quoter: Quoter<I>, t: P.Trader<QuoteState<I>>,
                                event: MarketEvent, nowS: real)
    requires setup.limits.Valid() && setup.strategy == AsStrategy(quoter)
    requires TraderRemembers(t, quoter.size) && Trading(t) && !P.EventProcessed(setup, t, event, nowS).switch.halted
    ensures TraderRemembers(P.EventProcessed(setup, t, event, nowS), quoter.size)
  {
    hide Trading, Remembered, P.Drained, P.MarketApplied, Ticked, Called;
    DrainedKeepsRemembered(setup.category, t, event.ts, quoter.size);
    var drained := P.Drained(setup.category, t, event.ts);
    MarketKeepsRemembered(setup.category, drained, event, quoter.size);
    var ticked := P.SwitchTicked(setup.limits, P.MarketApplied(setup.category, drained, event), nowS);
    CalledKeepsRemembered(setup.latency, ticked.desk, quoter, ticked.state, OnTape(event), drained.seqCounter);
  }

  lemma {:induction false} TraderRunRemembers<I>(setup: P.PaperSetup<QuoteState<I>>, quoter: Quoter<I>, book: Book,
                                                 inner: I, inputs: seq<P.Input>)
    requires setup.limits.Valid() && Wf(book) && book.orders == [] && setup.strategy == AsStrategy(quoter)
    requires !P.After(setup, P.Fresh(book, Initial(inner)), inputs).switch.halted
    ensures TraderRemembers(P.After(setup, P.Fresh(book, Initial(inner)), inputs), quoter.size)
  {
    hide P.EventProcessed, Remembered, Consistent, AllScheduled, IdsMatch, Clean, Wf;
    if inputs == [] {
      FreshRemembers(book, inner, quoter.size);
    } else {
      hide P.Fresh;
      var init, last := inputs[..|inputs| - 1], inputs[|inputs| - 1];
      var t := P.After(setup, P.Fresh(book, Initial(inner)), init);
      AlwaysAtRest(setup, book, Initial(inner), init);
      if t.switch.halted { HaltedTurnFrozen(setup, t, last); }
      TraderRunRemembers(setup, quoter, book, inner, init);
      if last.MarketMessage? {
        EventKeepsRemembered(setup, quoter, t.(switch := MessageNoted(t.switch, last.receivedS)), last.event,
                             last.tickedS);
      }
    }
  }

  lemma FreshRemembers<I>(book: Book, inner: I, size: OrderSize)
    requires Wf(book) && book.orders == []
    ensures TraderRemembers(P.Fresh(book, Initial(inner)), size)
  {
  }

  /** The same on the paper trader, under every interleaving of its tasks, as long as it has not halted. */
  lemma TraderQuoteStandsIff<I>(setup: P.PaperSetup<QuoteState<I>>, quoter: Quoter<I>, book: Book, inner: I,
                                inputs: seq<P.Input>, side: Side)
    requires setup.limits.Valid() && Wf(book) && book.orders == [] && setup.strategy == AsStrategy(quoter)
    requires !P.After(setup, P.Fresh(book, Initial(inner)), inputs).switch.halted
    ensures var t := P.After(setup, P.Fresh(book, Initial(inner)), inputs);
            StandsIffUnfilled(t.desk, QuoteOn(t.state, side), side, quoter.size)
  {
    hide P.After, P.Fresh, Lifecycle, StandsIffUnfilled, Remembered;
    var t := P.After(setup, P.Fresh(book, Initial(inner)), inputs);
    var q, other := QuoteOn(t.state, side), QuoteOn(t.state, Other(side));
    TraderRunRemembers(setup, quoter, book, inner, inputs);
    if side.Ask? { SidesSwap(t.desk, Bid, other, q, quoter.size); }
    if q.oid.Some? { IdsAreRestingOrders(setup, book, Initial(inner), inputs, q.oid.value); }
    RememberedStandsIff(t.desk, side, q, other, quoter.size);
  }
}
