/**
 The halt protocol under every interleaving of feed and heartbeat turns: what is tracked as ours is
 what rests in the book, and a halt clears it, is recorded once, and is final.
 */
module HaltProtocol {
  import opened OrderBook
  import opened BookInvariant
  import opened TradePriority
  import opened Fees
  import opened TradingDesk
  import opened DeskInvariant
  import opened BacktestRuns
  import opened KillSwitches
  import P = Paper

  // ---------- our ids are the resting orders ----------

  ghost predicate IdsMatch(ids: set<OrderId>, orders: seq<Resting>) {
    forall id: OrderId :: id in ids <==> Tracks(orders, id)
  }

  lemma {:induction false} DropFilledKeeps(ids: set<OrderId>, fills: seq<BookFill>, orders: seq<Resting>)
    ensures forall id ::
              id in P.DropFilled(ids, fills, orders) <==> id in ids && (Filled(fills, id) ==> Tracks(orders, id))
  {
    if fills != [] {
      var init, last := fills[..|fills| - 1], fills[|fills| - 1];
      DropFilledKeeps(ids, init, orders);
      forall id ensures Filled(fills, id) <==> Filled(init, id) || id == last.id {
        if Filled(init, id) {
          var k :| 0 <= k < |init| && init[k].id == id;
          assert fills[k].id == id;
        }
        if Filled(fills, id) && id != last.id {
          var k :| 0 <= k < |fills| && fills[k].id == id;
          assert init[k].id == id;
        }
      }
    }
  }

  /** An order leaves the book in a trade only by being filled. */
  lemma TradeDropsOnlyFilled(book: Book, t: Print, size: Volume, id: OrderId)
    requires Wf(book) && t.levels == LevelsOf(book, t.side)
    requires Tracks(book.orders, id) && !Filled(Walk(book.orders, t, size, map[]).fills, id)
    ensures Tracks(Walk(book.orders, t, size, map[]).orders, id)
  {
    var walked := Walk(book.orders, t, size, map[]);
    WalkConserves(book.orders, t, size, map[], id);
    WalkEvolves(book.orders, t, size, map[]);
    EvolvedDistinct(book.orders, walked.orders);
    RestingSizeIsFound(book.orders, id);
    RestingSizeIsFound(walked.orders, id);
    assert WfOrder(Find(book.orders, id).value);
    if FilledBy(walked.fills, id) != 0.0 { FilledByMeansFilled(walked.fills, id); }
  }

  lemma TradeKeepsIds(ids: set<OrderId>, book: Book, t: Print, size: Volume)
    requires Wf(book) && IdsMatch(ids, book.orders) && t.levels == LevelsOf(book, t.side)
    ensures var walked := Walk(book.orders, t, size, map[]);
            IdsMatch(P.DropFilled(ids, walked.fills, walked.orders), walked.orders)
  {
    var walked := Walk(book.orders, t, size, map[]);
    DropFilledKeeps(ids, walked.fills, walked.orders);
    WalkEvolves(book.orders, t, size, map[]);
    forall id: OrderId ensures id in P.DropFilled(ids, walked.fills, walked.orders) <==> Tracks(walked.orders, id) {
      if Tracks(walked.orders, id) && !Tracks(book.orders, id) {
        EvolvedNotTracked(book.orders, walked.orders, id);
      }
      if Tracks(book.orders, id) && !Filled(walked.fills, id) {
        TradeDropsOnlyFilled(book, t, size, id);
      }
    }
  }

  lemma PlaceKeepsIds(ids: set<OrderId>, category: FeeCategory, core: Core, p: Placement, now: Millis)
    requires IdsMatch(ids, core.book.orders)
    ensures var after := ApplyPlace(category, core, p, now);
            IdsMatch(P.IdsAfter(ids, core, after, Timed(now, PlaceArrival(p))), after.book.orders)
  {
    var orders, after := core.book.orders, ApplyPlace(category, core, p, now).book.orders;
    if after != orders {
      var added := after[|orders|..];
      assert after == orders + added && |added| == 1 && added[0].id == p.id;
      forall id: OrderId ensures Tracks(after, id) <==> Tracks(orders, id) || id == p.id {
        TracksConcat(orders, added, id);
        if id == p.id { assert added[0].id == id; }
      }
    }
  }

  lemma CancelKeepsIds(ids: set<OrderId>, orders: seq<Resting>, id: OrderId)
    requires IdsMatch(ids, orders)
    ensures IdsMatch(ids - {id}, Without(orders, id))
  {
    WithoutEvolves(orders, id);
    forall other: OrderId ensures other in ids - {id} <==> Tracks(Without(orders, id), other) {
      if other != id { WithoutKeepsOthers(orders, id, other); }
    }
  }

  lemma EventKeepsIds(category: FeeCategory, ids: set<OrderId>, d: Desk, e: Timed)
    requires Consistent(d) && IdsMatch(ids, d.core.book.orders)
    ensures var after := Apply(category, d.core, e);
            IdsMatch(P.IdsAfter(ids, d.core, after, e), after.book.orders)
  {
    match e.payload
    case Market(event) =>
      if event.LastTrade? {
        TradeKeepsIds(ids, d.core.book, PrintOf(d.core.book, event.price, event.side, event.ts), event.size);
      } else {
        ChangesKeepOrders(category, d.core, event);
      }
    case PlaceArrival(p) => PlaceKeepsIds(ids, category, d.core, p, e.ts);
    case CancelArrival(id) => CancelKeepsIds(ids, d.core.book.orders, id);
  }

  lemma ChangesKeepOrders(category: FeeCategory, core: Core, event: MarketEvent)
    requires !event.LastTrade? && Wf(core.book)
    ensures ApplyMarket(category, core, event).book.orders == core.book.orders
  {
    if event.PriceChange? { ChangesKeepWf(core.book, event.changes); }
  }

  // ---------- the invariant of a turn ----------

  /** Nothing of ours is left anywhere. */
  ghost predicate Clean(d: Desk) {
    d.core.book.orders == [] && d.core.pending == map[] && d.queue == []
  }

  ghost predicate Trading<S>(t: P.Trader<S>) {
    && Consistent(t.desk) && AllScheduled(t.desk) && IdsMatch(t.ourIds, t.desk.core.book.orders)
    && (t.haltLogged ==> t.switch.halted && Clean(t.desk) && t.ourIds == {})
    && t.haltRecords == (if t.haltLogged then 1 else 0)
  }

  /** Between turns: a tripped switch has been acted upon. */
  ghost predicate AtRest<S>(t: P.Trader<S>) {
    Trading(t) && (t.switch.halted <==> t.haltLogged)
  }

  lemma DueKeeps(d: Desk)
    requires Consistent(d) && AllScheduled(d) && d.queue != []
    ensures Consistent(P.Due(d)) && AllScheduled(P.Due(d))
  {
    var due := P.Due(d).queue;
    assert |due| == |d.queue| && forall i :: 0 <= i < |due| ==> due[i].payload == d.queue[i].payload;
    forall id | id in d.core.pending ensures Scheduled(due, d.core.pending[id]) {
      var i :| 0 <= i < |d.queue| && d.queue[i].payload == PlaceArrival(d.core.pending[id]);
      assert due[i].payload == PlaceArrival(d.core.pending[id]);
    }
  }

  lemma DrainOneKeeps<S>(category: FeeCategory, t: P.Trader<S>)
    requires Trading(t) && t.desk.queue != []
    ensures Trading(P.DrainOne(category, t))
  {
    DueKeeps(t.desk);
    DeliverHeadKeeps(category, P.Due(t.desk));
    EventKeepsIds(category, t.ourIds, P.Due(t.desk), P.Due(t.desk).queue[0]);
  }

  lemma {:induction false} DrainedKeeps<S>(category: FeeCategory, t: P.Trader<S>, ts: Millis)
    requires Trading(t)
    ensures Trading(P.Drained(category, t, ts))
    ensures P.Drained(category, t, ts).switch == t.switch && P.Drained(category, t, ts).haltLogged == t.haltLogged
    decreases |t.desk.queue|
  {
    hide Trading;
    if t.desk.queue != [] && t.desk.queue[0].ts <= ts {
      DrainOneKeeps(category, t);
      DrainedKeeps(category, P.DrainOne(category, t), ts);
    }
  }

  /** Draining numbers nothing and leaves the strategy alone. */
  lemma {:induction false} DrainKeepsCount<S>(category: FeeCategory, t: P.Trader<S>, ts: Millis)
    ensures P.Drained(category, t, ts).seqCounter == t.seqCounter && P.Drained(category, t, ts).state == t.state
    decreases |t.desk.queue|
  {
    if t.desk.queue != [] && t.desk.queue[0].ts <= ts { DrainKeepsCount(category, P.DrainOne(category, t), ts); }
  }

  /** Draining leaves the switch alone, and ignores it. */
  lemma {:induction false} DrainIgnoresSwitch<S>(category: FeeCategory, t: P.Trader<S>, s: Switch, ts: Millis)
    ensures P.Drained(category, t.(switch := s), ts) == P.Drained(category, t, ts).(switch := s)
    decreases |t.desk.queue|
  {
    if t.desk.queue != [] && t.desk.queue[0].ts <= ts {
      assert P.DrainOne(category, t.(switch := s)) == P.DrainOne(category, t).(switch := s);
      DrainIgnoresSwitch(category, P.DrainOne(category, t), s, ts);
    }
  }

  lemma MarketAppliedKeeps<S>(category: FeeCategory, t: P.Trader<S>, event: MarketEvent)
    requires Trading(t)
    ensures Trading(P.MarketApplied(category, t, event))
  {
    DeliverKeepsConsistent(category, t.desk, OnTape(event));
    PendingAfter(category, t.desk, OnTape(event));
    EventKeepsIds(category, t.ourIds, t.desk, OnTape(event));
    if t.haltLogged { QuietMarket(category, t.desk, event); }
  }

  /** Without orders of ours a market event fills nothing and leaves nothing of ours. */
  lemma QuietMarket(category: FeeCategory, d: Desk, event: MarketEvent)
    requires Clean(d) && Wf(d.core.book)
    ensures var after := Delivered(category, d, OnTape(event));
            && Clean(after) && after.core.account == d.core.account.(lastMid := after.core.account.lastMid)
            && after.history == d.history
  {
    if !event.LastTrade? { ChangesKeepOrders(category, d.core, event); }
  }

  // ---------- the halt ----------

  lemma {:induction false} AllGone(orders: seq<Resting>, ids: set<OrderId>)
    requires forall i :: 0 <= i < |orders| ==> orders[i].id in ids
    ensures P.WithoutAll(orders, ids) == []
  {
    if orders != [] {
      assert forall i :: 0 <= i < |orders[1..]| ==> orders[1..][i] == orders[i + 1];
      AllGone(orders[1..], ids);
    }
  }

  lemma HaltedIsClean<S>(t: P.Trader<S>)
    requires Trading(t) && t.switch.halted
    ensures AtRest(P.Halted(t))
    ensures P.Halted(t).desk.core.account == t.desk.core.account && P.Halted(t).switch == t.switch
  {
    if !t.haltLogged {
      forall i | 0 <= i < |t.desk.core.book.orders| ensures t.desk.core.book.orders[i].id in t.ourIds {
        assert Tracks(t.desk.core.book.orders, t.desk.core.book.orders[i].id);
      }
      AllGone(t.desk.core.book.orders, t.ourIds);
      HaltKeepsConsistent(t);
    }
  }

  lemma HaltKeepsConsistent<S>(t: P.Trader<S>)
    requires Trading(t) && !t.haltLogged && P.WithoutAll(t.desk.core.book.orders, t.ourIds) == []
    ensures Consistent(P.Halted(t).desk)
  {
    var d, after := t.desk, P.Halted(t).desk;
    var h := d.history;
    forall id | id in t.ourIds + d.core.pending.Keys ensures id in h.placed {
      if id in t.ourIds {
        var i :| 0 <= i < |d.core.book.orders| && d.core.book.orders[i].id == id;
        assert RestsAsPlaced(d.core.book.orders[i], h);
      } else {
        assert PendsAsPlaced(d.core, id, h);
      }
    }
    forall id | id in after.history.placed ensures SizeAccountedFor(after.core, after.history, id) {
      assert SizeAccountedFor(d.core, h, id);
      OpenNonNegative(d.core, h, id);
      FilledNonNegative(d.core.account, h.placed, d.core.account.fills, id);
      if id !in after.history.cancelled {
        assert !Tracks(d.core.book.orders, id);
        UntrackedHasNoSize(d.core.book.orders, id);
      }
    }
  }

  // ---------- turns ----------

  lemma CalledKeepsTrading<S>(setup: P.PaperSetup<S>, t: P.Trader<S>, event: MarketEvent, seqNo: nat)
    requires AtRest(t) && !t.switch.halted
    ensures AtRest(P.StrategyCalled(setup, t, event, seqNo))
  {
    CalledKeepsConsistent(setup.strategy, setup.latency, t.desk, t.state, OnTape(event), seqNo);
    PerformAllKeepsCore(setup.latency, t.desk,
                        Allowed(setup.strategy.onEvent(t.state, ViewOf(t.desk), OnTape(event), seqNo).actions));
  }

  lemma TickLatches(limits: Limits, s: Switch, nowS: real, pnl: real, inventory: real)
    requires limits.Valid() && s.halted
    ensures Ticked(limits, s, nowS, pnl, inventory).halted
  {
  }

  lemma EventKeepsAtRest<S>(setup: P.PaperSetup<S>, t: P.Trader<S>, event: MarketEvent, nowS: real)
    requires setup.limits.Valid() && AtRest(t)
    ensures AtRest(P.EventProcessed(setup, t, event, nowS))
  {
    hide P.Drained, P.MarketApplied, P.Halted, P.StrategyCalled, Ticked, IdsMatch, Clean, Consistent, AllScheduled;
    var drained := P.Drained(setup.category, t, event.ts);
    DrainedKeeps(setup.category, t, event.ts);
    MarketAppliedKeeps(setup.category, drained, event);
    var applied := P.MarketApplied(setup.category, drained, event);
    var ticked := P.SwitchTicked(setup.limits, applied, nowS);
    if applied.switch.halted {
      TickLatches(setup.limits, applied.switch, nowS, MarkToMid(applied.desk.core.account),
                  applied.desk.core.account.inventory);
    }
    if ticked.switch.halted {
      HaltedIsClean(ticked);
    } else {
      CalledKeepsTrading(setup, ticked, event, drained.seqCounter);
    }
  }

  lemma HandleKeepsAtRest<S>(setup: P.PaperSetup<S>, t: P.Trader<S>, input: P.Input)
    requires setup.limits.Valid() && AtRest(t)
    ensures AtRest(P.Handle(setup, t, input))
  {
    hide P.EventProcessed, P.Halted, IdsMatch, Clean, Consistent, AllScheduled;
    match input
    case MarketMessage(event, receivedS, tickedS) =>
      EventKeepsAtRest(setup, t.(switch := MessageNoted(t.switch, receivedS)), event, tickedS);
    case OtherMessage(_) =>
    case WatchdogWakes(nowS) =>
      if t.watching {
        var checked := t.(switch := HeartbeatChecked(setup.limits, t.switch, nowS));
        if checked.switch.halted { HaltedIsClean(checked); }
      }
    case StopRequest =>
  }

  lemma FreshAtRest<S>(book: Book, state: S)
    requires Wf(book) && book.orders == []
    ensures AtRest(P.Fresh(book, state))
  {
  }

  /** Between any two turns of the two tasks the trader is consistent, and a trip has been acted upon. */
  lemma {:induction false} AlwaysAtRest<S>(setup: P.PaperSetup<S>, book: Book, state: S, inputs: seq<P.Input>)
    requires setup.limits.Valid() && Wf(book) && book.orders == []
    ensures AtRest(P.After(setup, P.Fresh(book, state), inputs))
  {
    hide P.Handle, AtRest;
    if inputs == [] {
      FreshAtRest(book, state);
    } else {
      AlwaysAtRest(setup, book, state, inputs[..|inputs| - 1]);
      HandleKeepsAtRest(setup, P.After(setup, P.Fresh(book, state), inputs[..|inputs| - 1]), inputs[|inputs| - 1]);
    }
  }

  // ---------- nothing happens after a halt ----------

  /** What a halted trader must never change again: accounts but for the mark price, callbacks, the halt record. */
  ghost predicate Frozen<S>(before: P.Trader<S>, after: P.Trader<S>) {
    && after.switch.halted && Clean(after.desk) && after.haltRecords == before.haltRecords
    && after.desk.core.account.fills == before.desk.core.account.fills
    && after.desk.core.account.cash == before.desk.core.account.cash
    && after.desk.core.account.inventory == before.desk.core.account.inventory
    && after.desk.history.calls == before.desk.history.calls
    && after.desk.history.placed == before.desk.history.placed
  }

  lemma HaltedEventFrozen<S>(setup: P.PaperSetup<S>, t: P.Trader<S>, event: MarketEvent, nowS: real)
    requires setup.limits.Valid() && AtRest(t) && t.switch.halted
    ensures Frozen(t, P.EventProcessed(setup, t, event, nowS))
  {
    QuietMarket(setup.category, t.desk, event);
    assert P.Drained(setup.category, t, event.ts) == t;
    var applied := P.MarketApplied(setup.category, t, event);
    TickLatches(setup.limits, applied.switch, nowS, MarkToMid(applied.desk.core.account),
                applied.desk.core.account.inventory);
  }

  lemma HaltedTurnFrozen<S>(setup: P.PaperSetup<S>, t: P.Trader<S>, input: P.Input)
    requires setup.limits.Valid() && AtRest(t) && t.switch.halted
    ensures Frozen(t, P.Handle(setup, t, input))
  {
    hide P.EventProcessed;
    if input.MarketMessage? {
      HaltedEventFrozen(setup, t.(switch := MessageNoted(t.switch, input.receivedS)), input.event, input.tickedS);
    }
  }

  lemma {:induction false} HaltedRunFrozen<S>(setup: P.PaperSetup<S>, t: P.Trader<S>, more: seq<P.Input>)
    requires setup.limits.Valid() && AtRest(t) && t.switch.halted
    ensures AtRest(P.After(setup, t, more)) && Frozen(t, P.After(setup, t, more))
  {
    hide P.Handle;
    if more != [] {
      var before := P.After(setup, t, more[..|more| - 1]);
      HaltedRunFrozen(setup, t, more[..|more| - 1]);
      HandleKeepsAtRest(setup, before, more[|more| - 1]);
      HaltedTurnFrozen(setup, before, more[|more| - 1]);
    }
  }

  lemma {:induction false} AfterConcat<S>(setup: P.PaperSetup<S>, t: P.Trader<S>, first: seq<P.Input>,
                                          more: seq<P.Input>)
    requires setup.limits.Valid()
    ensures P.After(setup, t, first + more) == P.After(setup, P.After(setup, t, first), more)
  {
    hide P.Handle;
    if more == [] {
      assert first + more == first;
    } else {
      assert (first + more)[..|first + more| - 1] == first + more[..|more| - 1];
      AfterConcat(setup, t, first, more[..|more| - 1]);
    }
  }

  /**
   A halt is final and clean, however the two tasks are interleaved: once the switch is halted
   between two turns, there is exactly one halt record, nothing of ours rests, pends or is under way,
   and no later turn changes fills, cash or inventory, calls the strategy or places an order.
   */
  lemma HaltIsAbsorbing<S>(setup: P.PaperSetup<S>, book: Book, state: S, inputs: seq<P.Input>, more: seq<P.Input>)
    requires setup.limits.Valid() && Wf(book) && book.orders == []
    requires P.After(setup, P.Fresh(book, state), inputs).switch.halted
    ensures var halted, later := P.After(setup, P.Fresh(book, state), inputs),
                P.After(setup, P.Fresh(book, state), inputs + more);
            && halted.haltRecords == 1 && Clean(halted.desk) && halted.ourIds == {}
            && Frozen(halted, later) && later.ourIds == {}
  {
    hide P.Handle, P.Fresh;
    AlwaysAtRest(setup, book, state, inputs);
    AlwaysAtRest(setup, book, state, inputs + more);
    AfterConcat(setup, P.Fresh(book, state), inputs, more);
    HaltedRunFrozen(setup, P.After(setup, P.Fresh(book, state), inputs), more);
  }

  /** While it trades, the ids it would cancel on a halt are exactly its resting orders. */
  lemma IdsAreRestingOrders<S>(setup: P.PaperSetup<S>, book: Book, state: S, inputs: seq<P.Input>, id: OrderId)
    requires setup.limits.Valid() && Wf(book) && book.orders == []
    ensures var t := P.After(setup, P.Fresh(book, state), inputs);
            && (id in t.ourIds <==> Tracks(t.desk.core.book.orders, id))
            && (id in t.desk.history.placed ==> Lifecycle(t.desk, id))
  {
    hide P.Handle, P.Fresh, Lifecycle;
    AlwaysAtRest(setup, book, state, inputs);
    var t := P.After(setup, P.Fresh(book, state), inputs);
    if id in t.desk.history.placed { ConsistentLifecycle(t.desk, id); }
  }
}
