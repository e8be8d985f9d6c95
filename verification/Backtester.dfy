/** The backtester itself: its fields, its methods and its main loop, tied to the state machine. */
module BacktesterClass {
  import opened Prelude
  import opened OrderBook
  import opened BookInvariant
  import opened Fees
  import opened TradingDesk
  import opened DeskInvariant
  import opened EventOrder
  import opened EventHeap
  import opened L2OrderBookClass
  import opened BacktestRuns
  import opened Termination
  import B = Backtest

  class Backtester {
    const book: L2OrderBook
    const latency: Latency
    const category: FeeCategory
    const recordPnlSeries: bool
    var heap: seq<SimEvent>
    var seqCounter: nat
    var latencyDraws: nat
    var nowMs: Millis
    var cash: real
    var inventory: real
    var feesPaid: real
    var rebatesReceived: real
    var fills: seq<Fill>
    var lastMid: Option<real>
    var nextOrderId: OrderId
    var pendingPlaces: map<OrderId, Placement>
    var pnlSeries: seq<B.PnLSnapshot>
    ghost var history: History
    ghost var popped: seq<SimEvent>

    ghost predicate Valid()
      reads this, book
    {
      book.Valid() && Heap(heap, seqCounter)
    }

    ghost function AccountView(): Account
      reads this
    {
      Account(cash, inventory, feesPaid, rebatesReceived, fills, lastMid)
    }

    ghost function CoreView(): Core
      reads this, book
      requires book.Valid()
    {
      Core(book.View(), AccountView(), pendingPlaces)
    }

    ghost function View(): Desk
      reads this, book
      requires Valid()
    {
      Desk(CoreView(), Queued(heap), nextOrderId, latencyDraws, nowMs, history)
    }

    /** The simulator in the middle of a run over the market events still on `tape`. */
    ghost function SimView<S>(tape: seq<MarketEvent>, state: S, raised: bool): B.Sim<S>
      reads this, book
      requires Valid()
    {
      B.Sim(View(), tape, state, raised, Numbers(heap), seqCounter)
    }

    constructor (book: L2OrderBook, latency: Latency, category: FeeCategory, recordPnlSeries: bool)
      requires book.Valid()
      ensures Valid() && this.book == book && this.latency == latency && this.category == category
      ensures this.recordPnlSeries == recordPnlSeries
      ensures View() == Opened(book.View()) && popped == [] && seqCounter == 0 && pnlSeries == []
    {
      this.book, this.latency, this.category, this.recordPnlSeries := book, latency, category, recordPnlSeries;
      heap, seqCounter, latencyDraws, nowMs := [], 0, 0, 0;
      cash, inventory, feesPaid, rebatesReceived, fills, lastMid := 0.0, 0.0, 0.0, 0.0, [], None;
      nextOrderId, pendingPlaces := 1, map[];
      history, popped, pnlSeries := NO_HISTORY, [], [];
    }

    // ---------- the interface for strategies ----------

    /** Sampling the latency model advances its draw count. */
    method Sample() returns (arrivalMs: Millis)
      modifies this`latencyDraws
      ensures arrivalMs == latency(old(latencyDraws), nowMs) && latencyDraws == old(latencyDraws) + 1
    {
      arrivalMs := latency(latencyDraws, nowMs);
      latencyDraws := latencyDraws + 1;
    }

    method PushEvent(timestampMs: Millis, payload: Payload)
      requires Valid()
      modifies this`heap, this`seqCounter
      ensures Valid() && Queued(heap) == Enqueue(old(Queued(heap)), Timed(timestampMs, payload))
      ensures Numbers(heap) == NumberIn(old(Queued(heap)), old(Numbers(heap)), timestampMs, old(seqCounter))
      ensures forall x :: x in heap ==> x in old(heap) || (x.timestampMs == timestampMs && x.seqNo >= old(seqCounter))
      ensures seqCounter == old(seqCounter) + 1
    {
      heap := Push(heap, SimEvent(timestampMs, seqCounter, payload));
      seqCounter := seqCounter + 1;
    }

    /** None is the error for a size that is not positive. */
    method PlaceLimit(side: Side, price: real, size: real, postOnly: bool) returns (id: Option<OrderId>)
      requires Valid()
      modifies this`heap, this`seqCounter, this`latencyDraws, this`nextOrderId, this`pendingPlaces, this`history
      ensures Valid()
      ensures size <= 0.0 ==> id == None && View() == old(View()) && heap == old(heap)
      ensures size > 0.0 ==>
                && id == Some(old(nextOrderId))
                && View() == TradingDesk.PlaceLimit(latency, old(View()), side, price, size, postOnly)
      ensures size > 0.0 ==> NumberedAction(old(Queued(heap)), old(Numbers(heap)), old(seqCounter),
                                            latency(old(latencyDraws), nowMs))
      ensures Later(old(heap), old(seqCounter), latency(old(latencyDraws), nowMs))
    {
      hide Enqueue, NumberIn, Heap, Queued, L2OrderBook.View, L2OrderBook.Valid;
      if size <= 0.0 {
        return None;
      }
      var p := Placement(nextOrderId, side, price, size, postOnly);
      nextOrderId := nextOrderId + 1;
      var arrivalMs := Sample();
      pendingPlaces := pendingPlaces[p.id := p];
      PushEvent(arrivalMs, PlaceArrival(p));
      history := history.(placed := history.placed[p.id := p]);
      return Some(p.id);
    }

    method Cancel(id: OrderId)
      requires Valid()
      modifies this`heap, this`seqCounter, this`latencyDraws, this`history
      ensures Valid() && View() == RequestCancel(latency, old(View()), id)
      ensures NumberedAction(old(Queued(heap)), old(Numbers(heap)), old(seqCounter), latency(old(latencyDraws), nowMs))
      ensures Later(old(heap), old(seqCounter), latency(old(latencyDraws), nowMs))
    {
      var arrivalMs := Sample();
      PushEvent(arrivalMs, CancelArrival(id));
      history := history.(cancelRequested := history.cancelRequested + {id});
    }

    /** One event was pushed for the time `t`, under the number the counter stood at. */
    ghost predicate NumberedAction(queue: seq<Timed>, numbers: seq<nat>, counter: nat, t: Millis)
      reads this
    {
      seqCounter == counter + 1 && Numbers(heap) == NumberIn(queue, numbers, t, counter)
    }

    /** Everything on the heap was there before or was pushed since, for the time `t`. */
    ghost predicate Later(before: seq<SimEvent>, counter: nat, t: Millis)
      reads this
    {
      seqCounter >= counter && forall x :: x in heap ==> x in before || (x.timestampMs == t && x.seqNo >= counter)
    }

    // ---------- applying events ----------

    method RefreshLastMid()
      requires Valid()
      modifies this`lastMid
      ensures Valid() && CoreView() == WithMid(old(CoreView()))
    {
      var mid := book.MidPrice();
      if mid.Some? {
        lastMid := mid;
      }
    }

    method RecordFill(id: OrderId, side: Side, price: real, size: real, isMaker: bool, queueAhead: real,
                      timeInBook: int, tsMs: int)
      requires Valid()
      modifies this`cash, this`inventory, this`feesPaid, this`rebatesReceived, this`fills
      ensures AccountView() == Booked(old(AccountView()),
                Fill(tsMs, id, side, price, size, isMaker, if isMaker then 0.0 else TakerFee(price, size, category),
                     if isMaker then MakerRebate(price, size, category) else 0.0, queueAhead, timeInBook))
    {
      hide TakerFee, MakerRebate;
      var fee, rebate;
      if isMaker {
        fee, rebate := 0.0, MakerRebate(price, size, category);
      } else {
        fee, rebate := TakerFee(price, size, category), 0.0;
      }
      var sign := Sign(side);
      var notional := price * size;
      cash := cash + (-sign * notional + rebate - fee);
      inventory := inventory + sign * size;
      feesPaid := feesPaid + fee;
      rebatesReceived := rebatesReceived + rebate;
      fills := fills + [Fill(tsMs, id, side, price, size, isMaker, fee, rebate, queueAhead, timeInBook)];
    }

    method ApplyPriceChanges(changes: seq<PriceLevelChange>)
      requires Valid()
      modifies book
      ensures Valid() && book.View() == ApplyChanges(old(book.View()), changes)
    {
      for i := 0 to |changes|
        invariant Valid() && book.View() == ApplyChanges(old(book.View()), changes[..i])
      {
        assert changes[..i + 1][..i] == changes[..i];
        book.ApplyLevelChange(changes[i].side, changes[i].price, changes[i].size);
      }
      assert changes[..|changes|] == changes;
    }

    method ApplyTradeFills(made: seq<BookFill>, price: real, ts: Millis)
      requires Valid()
      modifies this`cash, this`inventory, this`feesPaid, this`rebatesReceived, this`fills
      ensures Valid() && AccountView() == BookedAll(old(AccountView()), made, price, ts, category)
    {
      for i := 0 to |made|
        invariant AccountView() == BookedAll(old(AccountView()), made[..i], price, ts, category)
      {
        assert made[..i + 1][..i] == made[..i];
        var f := made[i];
        RecordFill(f.id, f.side, price, f.size, true, f.queueAhead, f.timeInBook, ts);
      }
      assert made[..|made|] == made;
    }

    method ApplyMarketEvent(event: MarketEvent)
      requires Valid()
      modifies this`cash, this`inventory, this`feesPaid, this`rebatesReceived, this`fills, this`lastMid, book
      ensures Valid() && CoreView() == ApplyMarket(category, old(CoreView()), event)
    {
      match event
      case BookSnapshot(_, bids, asks) =>
        book.ApplyBookSnapshot(bids, asks);
        RefreshLastMid();
      case PriceChange(_, changes) =>
        ApplyPriceChanges(changes);
        RefreshLastMid();
      case LastTrade(ts, price, size, side) =>
        var made := book.ProcessTrade(price, size, side, ts);
        ApplyTradeFills(made, price, ts);
        RefreshLastMid();
      case TickSizeChange(_, tick) =>
        book.SetTick(tick);
    }

    method CrossesSpread(side: Side, price: real) returns (crosses: bool)
      requires Valid()
      ensures crosses == TradingDesk.CrossesSpread(book.View(), side, price)
    {
      if side.Bid? {
        var ask := book.BestAskLevel();
        return ask.Some? && price >= ask.value.0;
      }
      var bid := book.BestBidLevel();
      return bid.Some? && price <= bid.value.0;
    }

    /** The book never refuses the order: callers know that it is new and not empty. */
    method Rest(p: Placement, size: real)
      requires Valid() && CanAdd(book.View(), p.id, size)
      modifies book
      ensures Valid() && book.View() == AddOrder(old(book.View()), p.id, p.side, p.price, size, nowMs)
    {
      var outcome := book.AddOurOrder(p.id, p.side, p.price, size, nowMs);
      assert outcome.Added?;
    }

    method HandlePlaceArrival(p: Placement)
      requires Valid() && (p.id in pendingPlaces ==> CanAdd(book.View(), p.id, p.size))
      modifies this`cash, this`inventory, this`feesPaid, this`rebatesReceived, this`fills, this`pendingPlaces, book
      ensures Valid() && CoreView() == ApplyPlace(category, old(CoreView()), p, nowMs)
    {
      if p.id !in pendingPlaces {
        return;
      }
      pendingPlaces := pendingPlaces - {p.id};
      var crosses := CrossesSpread(p.side, p.price);
      if !p.postOnly && crosses {
        var top := if p.side.Bid? then book.BestAskLevel() else book.BestBidLevel();
        var fillPrice, available := top.value.0, top.value.1;
        var fillSize := Min(p.size, available);
        RecordFill(p.id, p.side, fillPrice, fillSize, false, 0.0, 0, nowMs);
        var remainder := p.size - fillSize;
        if remainder > 0.0 {
          Rest(p, remainder);
        }
        return;
      }
      Rest(p, p.size);
    }

    method Apply(e: SimEvent)
      requires Valid() && nowMs == e.timestampMs
      requires e.payload.PlaceArrival? && e.payload.order.id in pendingPlaces ==>
                 CanAdd(book.View(), e.payload.order.id, e.payload.order.size)
      modifies this`cash, this`inventory, this`feesPaid, this`rebatesReceived, this`fills, this`lastMid,
               this`pendingPlaces, this`history, book
      ensures Valid() && CoreView() == TradingDesk.Apply(category, old(CoreView()), Bare(e))
      ensures history == Noted(old(history), old(CoreView()), CoreView(), Bare(e))
    {
      ghost var before := CoreView();
      match e.payload {
        case Market(event) => ApplyMarketEvent(event);
        case PlaceArrival(p) => HandlePlaceArrival(p);
        case CancelArrival(id) =>
          book.RemoveOurOrder(id);
          pendingPlaces := pendingPlaces - {id};
      }
      history := Noted(history, before, CoreView(), Bare(e));
    }

    // ---------- the main loop ----------

    /** Events that the strategy's actions or the tape added carry later times and higher numbers. */
    ghost predicate OnlyNewAfter(before: seq<SimEvent>, counter: nat, t: Millis)
      reads this
    {
      seqCounter >= counter && forall x :: x in heap ==> x in before || (x.timestampMs >= t && x.seqNo >= counter)
    }

    method PerformActions(actions: seq<Action>) returns (raised: bool)
      requires Valid()
      modifies this`heap, this`seqCounter, this`latencyDraws, this`nextOrderId, this`pendingPlaces, this`history
      ensures Valid() && View() == PerformAll(latency, old(View()), Allowed(actions)) && raised == Raises(actions)
      ensures seqCounter == old(seqCounter) + |Allowed(actions)|
      ensures Numbers(heap) == NumbersAfter(latency, old(View()), Allowed(actions), old(Numbers(heap)), old(seqCounter))
      ensures Causal(latency) ==> OnlyNewAfter(old(heap), old(seqCounter), nowMs)
    {
      hide Heap, Enqueue, NumberIn, Numbers, TradingDesk.PlaceLimit, RequestCancel, Perform;
      var i := 0;
      assert actions[..0] == [];
      while i < |actions|
        invariant 0 <= i <= |actions| && Valid()
        invariant forall k :: 0 <= k < i ==> Acceptable(actions[k])
        invariant View() == PerformAll(latency, old(View()), actions[..i]) && seqCounter == old(seqCounter) + i
        invariant Numbers(heap) == NumbersAfter(latency, old(View()), actions[..i], old(Numbers(heap)), old(seqCounter))
        invariant Causal(latency) ==> OnlyNewAfter(old(heap), old(seqCounter), nowMs)
      {
        assert actions[..i + 1][..i] == actions[..i];
        if actions[i].PlaceOrder? && actions[i].size <= 0.0 {
          AllowedUntil(actions, i);
          return true;
        }
        PerformAction(actions[i]);
        i := i + 1;
      }
      assert actions[..|actions|] == actions;
      AllowedUntil(actions, i);
      return false;
    }

    method PerformAction(a: Action)
      requires Valid() && Acceptable(a)
      modifies this`heap, this`seqCounter, this`latencyDraws, this`nextOrderId, this`pendingPlaces, this`history
      ensures Valid() && View() == Perform(latency, old(View()), a)
      ensures NumberedAction(old(Queued(heap)), old(Numbers(heap)), old(seqCounter), latency(old(latencyDraws), nowMs))
      ensures Later(old(heap), old(seqCounter), latency(old(latencyDraws), nowMs))
    {
      match a
      case PlaceOrder(side, price, size, postOnly) => var _ := PlaceLimit(side, price, size, postOnly);
      case CancelOrder(id) => Cancel(id);
    }

    /** The callback, and what it does through the simulator interface. */
    method CallStrategy<S>(strategy: Strategy<S>, state: S, e: SimEvent) returns (after: S, raised: bool)
      requires Valid()
      modifies this`heap, this`seqCounter, this`latencyDraws, this`nextOrderId, this`pendingPlaces, this`history
      ensures Valid() && (View(), after, raised) == Called(strategy, latency, old(View()), state, Bare(e), e.seqNo)
      ensures var actions := Allowed(strategy.onEvent(state, ViewOf(old(View())), Bare(e), e.seqNo).actions);
              && seqCounter == old(seqCounter) + |actions|
              && Numbers(heap) == NumbersAfter(latency, old(View()), actions, old(Numbers(heap)), old(seqCounter))
      ensures Causal(latency) ==> OnlyNewAfter(old(heap), old(seqCounter), nowMs)
    {
      hide Heap, Enqueue, PerformAll, NumbersAfter;
      var view := TradingDesk.View(nowMs, inventory, book.View(), nextOrderId);
      var reply := strategy.onEvent(state, view, Bare(e), e.seqNo);
      raised := PerformActions(reply.actions);
      after := reply.state;
      history := history.(calls := history.calls + [Call(Bare(e), e.seqNo, view, reply.actions)]);
    }

    /** The next market event, if there is one, is pushed. */
    method Refill<S>(events: seq<MarketEvent>, next: nat, ghost state: S) returns (after: nat)
      requires Valid() && next <= |events|
      modifies this`heap, this`seqCounter
      ensures Valid() && next <= after <= |events| && old(seqCounter) <= seqCounter
      ensures SimView(events[after..], state, false) == B.Refilled(old(SimView(events[next..], state, false)))
      ensures forall x :: x in heap ==>
                x in old(heap) || (next < |events| && x.timestampMs == events[next].ts && x.seqNo >= old(seqCounter))
    {
      hide Enqueue, NumberIn, Heap, Queued, Numbers;
      after := next;
      if next < |events| {
        PushEvent(events[next].ts, Market(events[next]));
        after := next + 1;
      }
    }

    /** The earliest event is popped, the clock set to it, and the event applied. */
    method Deliver() returns (e: SimEvent)
      requires Valid() && heap != [] && Consistent(View())
      modifies this`heap, this`popped, this`nowMs, this`cash, this`inventory, this`feesPaid, this`rebatesReceived,
               this`fills, this`lastMid, this`pendingPlaces, this`history, book
      ensures Valid() && nowMs == e.timestampMs && popped == old(popped) + [e] && e.seqNo < seqCounter && e in old(heap)
      ensures [Bare(e)] + Queued(heap) == old(Queued(heap)) && [e.seqNo] + Numbers(heap) == old(Numbers(heap))
      ensures View() == DeliverHead(category, old(View()))
      ensures forall x :: x in heap ==> x in old(heap) && Before(e, x)
    {
      hide TradingDesk.Apply, Noted, Consistent;
      ghost var desk := View();
      e, heap := Pop(heap, seqCounter);
      popped := popped + [e];
      nowMs := e.timestampMs;
      AcceptsHead(desk);
      Apply(e);
    }

    /** One iteration up to the callback: pop, apply, pull the next market event. */
    method Advance<S>(events: seq<MarketEvent>, next: nat, ghost setup: B.Setup<S>, ghost sim: B.Sim<S>)
      returns (e: SimEvent, after: nat)
      requires Valid() && heap != [] && next <= |events| && Consistent(View()) && setup.category == category
      requires sim == SimView(events[next..], sim.state, false)
      modifies this`heap, this`seqCounter, this`popped, this`nowMs, this`cash, this`inventory, this`feesPaid,
               this`rebatesReceived, this`fills, this`lastMid, this`pendingPlaces, this`history, book
      ensures Valid() && next <= after <= |events|
      ensures Queued(old(heap)) != [] && Queued(old(heap))[0] == Bare(e) && e in old(heap) && nowMs == e.timestampMs
      ensures B.HeadNumber(sim) == e.seqNo && B.Applied(setup, sim) == SimView(events[after..], sim.state, false)
      ensures popped == old(popped) + [e] && e.seqNo < old(seqCounter) <= seqCounter
      ensures forall x :: x in heap ==>
                (x in old(heap) && Before(e, x))
                || (next < |events| && x.timestampMs == events[next].ts && x.seqNo >= old(seqCounter))
    {
      hide Consistent, Heap, B.Refilled, DeliverHead, Queued, Numbers, L2OrderBook.View, L2OrderBook.Valid;
      e := Deliver();
      assert Numbers(heap) == sim.numbers[1..] && sim.numbers[0] == e.seqNo && sim.desk.queue[0] == Bare(e);
      after := Refill(events, next, sim.state);
    }

    /** Events come off the heap in strictly increasing (timestamp, sequence) order, and all to come are later still. */
    ghost predicate PoppedInOrder()
      reads this
    {
      && (forall i, j :: 0 <= i < j < |popped| ==> Before(popped[i], popped[j]))
      && (popped != [] ==>
            var last := popped[|popped| - 1];
            last.timestampMs == nowMs && last.seqNo < seqCounter && forall x :: x in heap ==> Before(last, x))
    }

    method RecordSnapshot()
      requires Valid()
      modifies this`pnlSeries
      ensures pnlSeries == old(pnlSeries) + [B.SnapshotOf(View())]
      ensures old(PoppedInOrder()) ==> PoppedInOrder()
    {
      var pnl := if lastMid.None? then cash else cash + inventory * lastMid.value;
      assert pnl == MarkToMid(AccountView());
      var snapshot := B.PnLSnapshot(nowMs, cash, inventory, lastMid, pnl);
      assert snapshot == B.SnapshotOf(View());
      pnlSeries := pnlSeries + [snapshot];
    }

    method Finalise() returns (result: B.SimulationResult)
      ensures result == B.ResultOf(AccountView(), pnlSeries)
    {
      var makers := 0;
      for i := 0 to |fills|
        invariant makers == B.MakerCount(fills[..i])
      {
        assert fills[..i + 1][..i] == fills[..i];
        if fills[i].isMaker {
          makers := makers + 1;
        }
      }
      assert fills[..|fills|] == fills;
      var pnl := if lastMid.None? then cash else cash + inventory * lastMid.value;
      return B.SimulationResult(pnl, |fills|, makers, |fills| - makers, inventory, cash, feesPaid, rebatesReceived,
                                fills, pnlSeries);
    }

    /** One iteration of the main loop is one step of the state machine. */
    method Iterate<S>(events: seq<MarketEvent>, next: nat, strategy: Strategy<S>, state: S, ghost sim: B.Sim<S>)
      returns (after: nat, newState: S, raised: bool)
      requires Valid() && heap != [] && next <= |events| && Consistent(View())
      requires sim == SimView(events[next..], state, false)
      modifies this, book
      ensures Valid() && next <= after <= |events| && pnlSeries == old(pnlSeries)
      ensures B.Step(B.Setup(category, latency, strategy), sim) == SimView(events[after..], newState, raised)
      ensures Timely(sim) && Causal(latency) && old(PoppedInOrder()) ==> PoppedInOrder()
    {
      hide Heap, Enqueue, Consistent, B.Applied, B.HeadNumber, Called, NumbersAfter, OnlyNewAfter, Timely, Queued,
           Numbers;
      var e;
      ghost var setup := B.Setup(category, latency, strategy);
      e, after := Advance(events, next, setup, sim);
      label advanced:
      ghost var between, counter := heap, seqCounter;
      assert Timely(sim) && Causal(latency) && old(PoppedInOrder()) ==> PoppedInOrder() by {
        if Timely(sim) && Causal(latency) && old(PoppedInOrder()) {
          NextIsLater(setup, sim, Bare(e));
          AdvancedInOrder(old(popped), old(heap), old(seqCounter), e, events, next);
        }
      }
      newState, raised := CallStrategy(strategy, state, e);
      assert old@advanced(PoppedInOrder()) && Causal(latency) ==> PoppedInOrder() by {
        if old@advanced(PoppedInOrder()) && Causal(latency) { StaysInOrder(between, counter, e); }
      }
    }

    /** One iteration with its entry in the PnL series, if that is recorded. */
    method IterateAndRecord<S>(events: seq<MarketEvent>, next: nat, strategy: Strategy<S>, state: S,
                               ghost sim: B.Sim<S>)
      returns (after: nat, newState: S, raised: bool)
      requires Valid() && heap != [] && next <= |events| && Consistent(View())
      requires sim == SimView(events[next..], state, false)
      modifies this, book
      ensures Valid() && next <= after <= |events|
      ensures B.Step(B.Setup(category, latency, strategy), sim) == SimView(events[after..], newState, raised)
      ensures pnlSeries == old(pnlSeries) + if recordPnlSeries && !raised then [B.SnapshotOf(View())] else []
      ensures Timely(sim) && Causal(latency) && old(PoppedInOrder()) ==> PoppedInOrder()
    {
      hide B.Step, Heap, Queued, Consistent, Timely, B.SnapshotOf;
      after, newState, raised := Iterate(events, next, strategy, state, sim);
      if recordPnlSeries && !raised {
        RecordSnapshot();
      }
    }

    /** The first event primes the heap. */
    method Prime<S>(events: seq<MarketEvent>, initial: S) returns (next: nat)
      requires Valid() && View() == Opened(book.View()) && popped == [] && seqCounter == 0
      modifies this`heap, this`seqCounter
      ensures Valid() && next <= |events| && PoppedInOrder()
      ensures SimView(events[next..], initial, false) == B.Start(book.View(), events, initial)
    {
      next := Refill(events, 0, initial);
    }

    /** The main loop, for at most `turns` iterations from the start of a run. */
    method Loop<S>(events: seq<MarketEvent>, first: nat, strategy: Strategy<S>, initial: S, turns: nat,
                   ghost opening: Book)
      returns (n: nat, finalState: S, raised: bool)
      requires Valid() && first <= |events| && pnlSeries == [] && PoppedInOrder()
      requires Wf(opening) && opening.orders == []
      requires SimView(events[first..], initial, false) == B.Start(opening, events, initial)
      modifies this, book
      ensures Valid() && n <= turns && (heap != [] && !raised ==> n == turns)
      ensures var setup, start := B.Setup(category, latency, strategy), B.Start(opening, events, initial);
              var final := B.After(setup, start, n);
              && View() == final.desk && finalState == final.state && raised == final.raised
              && pnlSeries == if recordPnlSeries then B.PnLSeries(setup, start, n) else []
      ensures SortedTape(events) && Causal(latency) ==> PoppedInOrder()
    {
      hide B.Step, Heap, Queued, Wf, Consistent, Timely, SortedTape, B.PnLSeries, B.SnapshotOf, B.Start;
      ghost var setup, start := B.Setup(category, latency, strategy), B.Start(opening, events, initial);
      SeriesStarts(setup, start);
      var next: nat := first;
      n, finalState, raised := 0, initial, false;
      while heap != [] && !raised && n < turns
        invariant Valid() && next <= |events| && n <= turns
        invariant B.After(setup, start, n) == SimView(events[next..], finalState, raised)
        invariant pnlSeries == if recordPnlSeries then B.PnLSeries(setup, start, n) else []
        invariant SortedTape(events) && Causal(latency) ==> PoppedInOrder()
        decreases turns - n
      {
        ghost var sim := B.After(setup, start, n);
        RunConsistent(setup, opening, events, initial, n);
        ghost var inOrder := SortedTape(events) && Causal(latency);
        if inOrder { RunTimely(setup, opening, events, initial, n); }
        SeriesNext(setup, start, n, heap);
        next, finalState, raised := IterateAndRecord(events, next, strategy, finalState, sim);
        n := n + 1;
      }
    }

    /**
     The backtest. It runs until the heap is empty or the strategy raises (None), or for `turns`
     iterations if it has not ended by then: a strategy that keeps acting on its own arrivals never
     ends. The state is that of the state machine, and on a sorted tape events are popped in strictly
     increasing (timestamp, sequence) order.
     */
    method Run<S>(events: seq<MarketEvent>, strategy: Strategy<S>, initial: S, turns: nat)
      returns (ended: bool, result: Option<B.SimulationResult>, finalState: S)
      requires Valid() && View() == Opened(book.View()) && popped == [] && seqCounter == 0 && pnlSeries == []
      requires Wf(book.View()) && book.View().orders == []
      modifies this, book
      ensures Valid()
      ensures var setup, start := B.Setup(category, latency, strategy), B.Start(old(book.View()), events, initial);
              var final := B.After(setup, start, turns);
              && View() == final.desk && finalState == final.state && ended == B.Done(final)
              && pnlSeries == (if recordPnlSeries then B.PnLSeries(setup, start, turns) else [])
              && result == if !ended || final.raised then None else Some(B.ResultOf(final.desk.core.account, pnlSeries))
      ensures SortedTape(events) && Causal(latency) ==>
                forall i, j :: 0 <= i < j < |popped| ==> Before(popped[i], popped[j])
    {
      hide B.Step, Heap, Queued, Wf, Consistent, Timely, SortedTape, B.PnLSeries, B.SnapshotOf, B.Start, B.After;
      ghost var opening := book.View();
      ghost var setup, start := B.Setup(category, latency, strategy), B.Start(opening, events, initial);
      var first := Prime(events, initial);
      var n, raised;
      n, finalState, raised := Loop(events, first, strategy, initial, turns, opening);
      ended := heap == [] || raised;
      DoneIff(setup, start, n, heap);
      if ended {
        DoneEarly(setup, start, n, turns, heap);
        SeriesStops(setup, start, n, turns);
      }
      if !ended || raised {
        return ended, None, finalState;
      }
      var summary := Finalise();
      return true, Some(summary), finalState;
    }

    lemma AdvancedInOrder(before: seq<SimEvent>, were: seq<SimEvent>, counter: nat, e: SimEvent,
                          events: seq<MarketEvent>, next: nat)
      requires popped == before + [e] && e.seqNo < counter <= seqCounter && e in were && nowMs == e.timestampMs
               && next <= |events|
      requires forall i, j :: 0 <= i < j < |before| ==> Before(before[i], before[j])
      requires before != [] ==> forall x :: x in were ==> Before(before[|before| - 1], x)
      requires next < |events| ==> e.timestampMs <= events[next].ts
      requires forall x :: x in heap ==>
                 (x in were && Before(e, x))
                 || (next < |events| && x.timestampMs == events[next].ts && x.seqNo >= counter)
      ensures PoppedInOrder()
    {
      forall i, j | 0 <= i < j < |popped| ensures Before(popped[i], popped[j]) {
        if j == |before| {
          assert Before(before[|before| - 1], e);
          if i < |before| - 1 { assert Before(before[i], before[|before| - 1]); }
        }
      }
    }

    lemma StaysInOrder(between: seq<SimEvent>, counter: nat, e: SimEvent)
      requires OnlyNewAfter(between, counter, nowMs) && popped != [] && popped[|popped| - 1] == e
      requires forall i, j :: 0 <= i < j < |popped| ==> Before(popped[i], popped[j])
      requires e.timestampMs == nowMs && e.seqNo < counter && forall x :: x in between ==> Before(e, x)
      ensures PoppedInOrder()
    {
    }
  }

  lemma AcceptsHead(d: Desk)
    requires Consistent(d) && d.queue != []
    ensures d.queue[0].payload.PlaceArrival? ==>
              var p := d.queue[0].payload.order;
              p.id in d.core.pending ==> CanAdd(d.core.book, p.id, p.size)
  {
    if d.queue[0].payload.PlaceArrival? {
      var p := d.queue[0].payload.order;
      assert Known(p, d.history.placed);
      assert p.id in d.core.pending ==> PendsAsPlaced(d.core, p.id, d.history);
    }
  }

  lemma QueuedEmpty(heap: seq<SimEvent>)
    ensures Queued(heap) == [] <==> heap == []
  {
  }

  lemma {:induction false} DoneKeeps<S>(setup: B.Setup<S>, sim: B.Sim<S>, k: nat)
    requires B.Done(sim)
    ensures B.After(setup, sim, k) == sim
  {
    hide B.Step;
    if k > 0 {
      DoneKeeps(setup, sim, k - 1);
      DoneStays(setup, sim);
    }
  }

  lemma DoneIff<S>(setup: B.Setup<S>, start: B.Sim<S>, n: nat, heap: seq<SimEvent>)
    requires B.After(setup, start, n).desk.queue == Queued(heap)
    ensures B.Done(B.After(setup, start, n)) <==> heap == [] || B.After(setup, start, n).raised
  {
    QueuedEmpty(heap);
  }

  lemma DoneEarly<S>(setup: B.Setup<S>, start: B.Sim<S>, n: nat, bound: nat, heap: seq<SimEvent>)
    requires n <= bound && B.After(setup, start, n).desk.queue == Queued(heap)
    requires heap == [] || B.After(setup, start, n).raised
    ensures B.After(setup, start, bound) == B.After(setup, start, n)
  {
    QueuedEmpty(heap);
    B.AfterSplits(setup, start, n, bound);
    DoneKeeps(setup, B.After(setup, start, n), bound - n);
  }

  lemma SeriesStarts<S>(setup: B.Setup<S>, start: B.Sim<S>)
    ensures B.PnLSeries(setup, start, 0) == []
  {
  }

  lemma SeriesNext<S>(setup: B.Setup<S>, start: B.Sim<S>, n: nat, heap: seq<SimEvent>)
    requires B.After(setup, start, n).desk.queue == Queued(heap) && heap != [] && !B.After(setup, start, n).raised
    ensures var after := B.Step(setup, B.After(setup, start, n));
            B.PnLSeries(setup, start, n + 1)
            == if after.raised then B.PnLSeries(setup, start, n)
               else B.PnLSeries(setup, start, n) + [B.SnapshotOf(after.desk)]
  {
    QueuedEmpty(heap);
  }

  lemma {:induction false} SeriesStops<S>(setup: B.Setup<S>, start: B.Sim<S>, n: nat, bound: nat)
    requires n <= bound && B.Done(B.After(setup, start, n))
    ensures B.PnLSeries(setup, start, bound) == B.PnLSeries(setup, start, n)
  {
    hide B.Step, B.SnapshotOf;
    if n < bound {
      B.AfterSplits(setup, start, n, bound - 1);
      DoneKeeps(setup, B.After(setup, start, n), bound - 1 - n);
      SeriesStops(setup, start, n, bound - 1);
    }
  }

  lemma NextIsLater<S>(setup: B.Setup<S>, sim: B.Sim<S>, e: Timed)
    requires Timely(sim) && sim.desk.queue != [] && sim.desk.queue[0] == e
    ensures sim.tape != [] ==> e.ts <= sim.tape[0].ts
  {
    if sim.tape != [] {
      var i :| 0 <= i < |sim.desk.queue| && sim.desk.queue[i].ts <= sim.tape[0].ts;
      HeadIsEarliest(sim.desk.queue, i);
    }
  }

  lemma {:induction false} AllowedUntil(actions: seq<Action>, i: nat)
    requires i <= |actions| && (forall k :: 0 <= k < i ==> Acceptable(actions[k]))
    requires i < |actions| ==> !Acceptable(actions[i])
    ensures Allowed(actions) == actions[..i] && (Raises(actions) <==> i < |actions|)
  {
    if i > 0 {
      assert Acceptable(actions[0]);
      assert forall k :: 0 <= k < i - 1 ==> actions[1..][k] == actions[k + 1];
      AllowedUntil(actions[1..], i - 1);
      assert actions[..i] == [actions[0]] + actions[1..][..i - 1];
    }
  }
}
