/**
 What a strategy is shown and what its actions become: the callback sees clock, inventory and book as
 the event has left them, and each action schedules one arrival at the time its latency says.
 */
module Callbacks {
  import opened OrderBook
  import opened BookInvariant
  import opened Fees
  import opened Metrics
  import opened TradingDesk
  import opened DeskInvariant
  import opened BacktestRuns
  import opened KillSwitches
  import opened HaltProtocol
  import B = Backtest
  import P = Paper

  /** The view of a desk: its clock, the inventory of all fills, the book, and one more than the orders placed. */
  ghost predicate Shows(view: View, d: Desk) {
    && view.now == d.now && view.inventory == InventoryOf(d.core.account.fills) && view.book == d.core.book
    && forall id :: 1 <= id < view.nextId <==> id in d.history.placed
  }

  /** One call was added: of this event, under this number, with a view of the desk `shown`. */
  ghost predicate CalledOn(before: Desk, after: Desk, e: Timed, n: nat, shown: Desk) {
    && |after.history.calls| == |before.history.calls| + 1
    && after.history.calls[..|before.history.calls|] == before.history.calls
    && var call := after.history.calls[|before.history.calls|];
       call.event == e && call.seqNo == n && Shows(call.view, shown)
  }

  lemma CallShows<S>(strategy: Strategy<S>, latency: Latency, d: Desk, state: S, e: Timed, n: nat)
    requires Consistent(d)
    ensures CalledOn(d, Called(strategy, latency, d, state, e, n).0, e, n, d)
    ensures var after := Called(strategy, latency, d, state, e, n).0;
            after.core.book == d.core.book && after.core.account == d.core.account && after.now == d.now
  {
    PerformAllKeepsCore(latency, d, Allowed(strategy.onEvent(state, ViewOf(d), e, n).actions));
  }

  /**
   Every step of a backtest calls the strategy once, on the event it delivers and under its number; what
   the call shows is the clock at the event, and book and inventory as the step leaves them.
   */
  lemma StepCalls<S>(setup: B.Setup<S>, book: Book, tape: seq<MarketEvent>, state: S, n: nat)
    requires Wf(book) && book.orders == []
    requires !B.Done(B.After(setup, B.Start(book, tape, state), n))
    ensures var start := B.Start(book, tape, state);
            var sim, after := B.After(setup, start, n), B.After(setup, start, n + 1).desk;
            && CalledOn(sim.desk, after, sim.desk.queue[0], B.HeadNumber(sim), B.Applied(setup, sim).desk)
            && after.core.book == B.Applied(setup, sim).desk.core.book
            && after.core.account == B.Applied(setup, sim).desk.core.account
            && after.now == B.Applied(setup, sim).desk.now == sim.desk.queue[0].ts
  {
    hide B.Applied, Consistent, Called, B.Start;
    var sim := B.After(setup, B.Start(book, tape, state), n);
    RunConsistent(setup, book, tape, state, n);
    AppliedIsConsistent(setup, sim);
    CallShows(setup.strategy, setup.latency, B.Applied(setup, sim).desk, sim.state, sim.desk.queue[0],
              B.HeadNumber(sim));
  }

  lemma AppliedIsConsistent<S>(setup: B.Setup<S>, sim: B.Sim<S>)
    requires Consistent(sim.desk) && AllScheduled(sim.desk) && !B.Done(sim)
    ensures var applied := B.Applied(setup, sim).desk;
            && Consistent(applied) && applied.now == sim.desk.queue[0].ts
            && applied.history.calls == sim.desk.history.calls
  {
    hide Consistent, AllScheduled, Apply;
    DeliverHeadKeeps(setup.category, sim.desk);
    RefillKeeps(sim.(desk := DeliverHead(setup.category, sim.desk)));
  }

  /** The paper trader calls the strategy once for every market event, unless it is halted by then. */
  lemma EventCalls<S>(setup: P.PaperSetup<S>, t: P.Trader<S>, event: MarketEvent, nowS: real)
    requires setup.limits.Valid() && Trading(t)
    ensures var drained := P.Drained(setup.category, t, event.ts);
            var marked, after := P.MarketApplied(setup.category, drained, event),
                P.EventProcessed(setup, t, event, nowS);
            if after.switch.halted then after.desk.history.calls == marked.desk.history.calls
            else && CalledOn(marked.desk, after.desk, OnTape(event), drained.seqCounter, marked.desk)
                 && after.desk.core.book == marked.desk.core.book && after.desk.core.account == marked.desk.core.account
                 && after.desk.now == marked.desk.now
  {
    hide P.Drained, P.MarketApplied, Ticked, Consistent, Called;
    var drained := P.Drained(setup.category, t, event.ts);
    DrainedKeeps(setup.category, t, event.ts);
    MarketAppliedKeeps(setup.category, drained, event);
    var ticked := P.SwitchTicked(setup.limits, P.MarketApplied(setup.category, drained, event), nowS);
    CallShows(setup.strategy, setup.latency, ticked.desk, ticked.state, OnTape(event), drained.seqCounter);
  }

  // ---------- actions ----------

  /** One more arrival is under way, and all that was before is still there as often. */
  ghost predicate OneMore(before: seq<Timed>, after: seq<Timed>, e: Timed) {
    multiset(after) == multiset(before) + multiset{e}
  }

  lemma {:induction false} EnqueuedOne(queue: seq<Timed>, e: Timed)
    ensures OneMore(queue, Enqueue(queue, e), e)
  {
    if queue == [] || e.ts < queue[0].ts {
    } else {
      EnqueuedOne(queue[1..], e);
      assert queue == [queue[0]] + queue[1..];
    }
  }

  /** What performing an action changes: a placement gets the next id and pends, a cancel is asked for. */
  lemma ActionBecomes(latency: Latency, d: Desk, a: Action)
    requires Acceptable(a)
    ensures var after, at := Perform(latency, d, a), latency(d.draws, d.now);
            && after.core.book == d.core.book && after.core.account == d.core.account && after.now == d.now
            && after.draws == d.draws + 1
            && match a
               case PlaceOrder(side, price, size, postOnly) =>
                 var order := Placement(d.nextId, side, price, size, postOnly);
                 && OneMore(d.queue, after.queue, Timed(at, PlaceArrival(order))) && after.nextId == d.nextId + 1
                 && after.core.pending == d.core.pending[d.nextId := order]
                 && after.history == d.history.(placed := d.history.placed[d.nextId := order])
               case CancelOrder(id) =>
                 && OneMore(d.queue, after.queue, Timed(at, CancelArrival(id))) && after.nextId == d.nextId
                 && after.core.pending == d.core.pending
                 && after.history == d.history.(cancelRequested := d.history.cancelRequested + {id})
  {
    EnqueuedOne(d.queue, ActionEvent(latency, d, a));
  }

  /** Placing a size that is not positive is refused. */
  predicate Refused(a: Action) {
    a.PlaceOrder? && a.size <= 0.0
  }

  lemma {:induction false} AllowedBefore(actions: seq<Action>, i: nat)
    requires i <= |actions| && (forall j :: 0 <= j < i ==> !Refused(actions[j]))
    requires i < |actions| ==> Refused(actions[i])
    ensures Allowed(actions) == actions[..i] && (Raises(actions) <==> i < |actions|)
  {
    if i > 0 {
      AllowedBefore(actions[1..], i - 1);
      assert actions[..i] == [actions[0]] + actions[1..][..i - 1];
    }
  }

  lemma {:induction false} DrawsTaken(latency: Latency, d: Desk, actions: seq<Action>)
    requires forall i :: 0 <= i < |actions| ==> Acceptable(actions[i])
    ensures PerformAll(latency, d, actions).draws == d.draws + |actions|
  {
    if actions != [] { DrawsTaken(latency, d, actions[..|actions| - 1]); }
  }

  /**
   A refused placement ends the run: the actions before it are performed, those after it are not, the
   strategy has raised, and no further step changes anything.
   */
  lemma RefusalEndsRun<S>(setup: B.Setup<S>, sim: B.Sim<S>, i: nat, k: nat)
    requires !B.Done(sim)
    requires var d := B.Applied(setup, sim).desk;
             var actions := setup.strategy.onEvent(sim.state, ViewOf(d), sim.desk.queue[0], B.HeadNumber(sim)).actions;
             i < |actions| && Refused(actions[i]) && forall j :: 0 <= j < i ==> !Refused(actions[j])
    ensures var d, after := B.Applied(setup, sim).desk, B.Step(setup, sim);
            after.raised && after.desk.draws == d.draws + i && B.After(setup, after, k) == after
  {
    hide B.Applied, B.After, PerformAll, NumbersAfter;
    var d := B.Applied(setup, sim).desk;
    var actions := setup.strategy.onEvent(sim.state, ViewOf(d), sim.desk.queue[0], B.HeadNumber(sim)).actions;
    AllowedBefore(actions, i);
    DrawsTaken(setup.latency, d, Allowed(actions));
    assert B.Step(setup, sim).raised;
    RaisedStays(setup, B.Step(setup, sim), k);
  }

  lemma {:induction false} RaisedStays<S>(setup: B.Setup<S>, sim: B.Sim<S>, k: nat)
    requires sim.raised
    ensures B.After(setup, sim, k) == sim
  {
    if k > 0 { RaisedStays(setup, sim, k - 1); }
  }

  // ---------- clock and watchdog of the paper trader ----------

  lemma {:induction false} DrainedClock<S>(category: FeeCategory, t: P.Trader<S>, ts: Millis)
    ensures t.desk.now <= P.Drained(category, t, ts).desk.now
    ensures t.desk.now <= ts ==> P.Drained(category, t, ts).desk.now <= ts
    decreases |t.desk.queue|
  {
    hide Apply, P.IdsAfter, Noted;
    if t.desk.queue != [] && t.desk.queue[0].ts <= ts { DrainedClock(category, P.DrainOne(category, t), ts); }
  }

  /** Whatever the feed delivers, in order or not: the trader's clock never goes back, and reaches each event's time. */
  lemma TraderClockNeverGoesBack<S>(setup: P.PaperSetup<S>, t: P.Trader<S>, input: P.Input)
    requires setup.limits.Valid()
    ensures var after := P.Handle(setup, t, input);
            && t.desk.now <= after.desk.now
            && (input.MarketMessage? ==>
                  after.desk.now == if t.desk.now < input.event.ts then input.event.ts else t.desk.now)
            && (!input.MarketMessage? ==> after.desk.now == t.desk.now)
  {
    hide P.Drained, Ticked, Apply, P.IdsAfter, Noted;
    if input.MarketMessage? {
      var s := t.(switch := MessageNoted(t.switch, input.receivedS));
      DrainedClock(setup.category, s, input.event.ts);
      if input.event.ts <= t.desk.now { LateClock(setup.category, s, input.event.ts); }
      var drained := P.Drained(setup.category, s, input.event.ts);
      var ticked := P.SwitchTicked(setup.limits, P.MarketApplied(setup.category, drained, input.event), input.tickedS);
      var actions := Allowed(setup.strategy.onEvent(ticked.state, ViewOf(ticked.desk), OnTape(input.event),
                                                    drained.seqCounter).actions);
      PerformAllKeepsCore(setup.latency, ticked.desk, actions);
    }
  }

  /** An event that is already past drains only arrivals that are past as well. */
  lemma {:induction false} LateClock<S>(category: FeeCategory, t: P.Trader<S>, ts: Millis)
    requires ts <= t.desk.now
    ensures P.Drained(category, t, ts).desk.now == t.desk.now
    decreases |t.desk.queue|
  {
    hide Apply, P.IdsAfter, Noted;
    if t.desk.queue != [] && t.desk.queue[0].ts <= ts { LateClock(category, P.DrainOne(category, t), ts); }
  }

  /**
   A stop request changes nothing by itself; after it the watchdog takes at most one more turn, and
   then changes nothing any more.
   */
  lemma StopEndsWatchdog<S>(setup: P.PaperSetup<S>, t: P.Trader<S>, nowS: real, laterS: real)
    requires setup.limits.Valid()
    ensures var stopped := P.Handle(setup, t, P.StopRequest);
            var last := P.Handle(setup, stopped, P.WatchdogWakes(nowS));
            && stopped.desk == t.desk && stopped.switch == t.switch && stopped.watching == t.watching
            && !last.watching && P.Handle(setup, last, P.WatchdogWakes(laterS)) == last
  {
  }

  /** A turn of a watchdog that is not stopping ends it if and only if the switch is halted then. */
  lemma WatchdogEndsIffHalted<S>(setup: P.PaperSetup<S>, t: P.Trader<S>, nowS: real)
    requires setup.limits.Valid() && t.watching && !t.stopping
    ensures var after := P.Handle(setup, t, P.WatchdogWakes(nowS)); after.watching <==> !after.switch.halted
  {
  }
}
