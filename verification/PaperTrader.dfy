/** The paper trader itself: its fields and the turns of its two tasks, tied to the state machine. */
module PaperTraderClass {
  import opened Prelude
  import opened OrderBook
  import opened Fees
  import opened TradingDesk
  import opened DeskInvariant
  import opened EventHeap
  import opened L2OrderBookClass
  import opened KillSwitches
  import opened HaltProtocol
  import Backtesting = BacktesterClass
  import P = Paper

  class PaperTrader<S> {
    const book: L2OrderBook
    const latency: Latency
    const category: FeeCategory
    const strategy: Strategy<S>
    const killSwitch: KillSwitch
    var strategyState: S
    var pendingArrivals: seq<SimEvent>
    var seqCounter: nat
    var latencyDraws: nat
    var nowMs: Millis
    var cash: real
    var inventory: real
    var feesPaid: real
    var rebatesReceived: real
    var fills: seq<Fill>
    var lastMid: Option<real>
    var nextOrderId: OrderId
    var pendingPlaces: map<OrderId, Placement>
    var ourOrderIds: set<OrderId>
    var haltLogged: bool
    var haltRecords: nat  // halt records written to the log
    var watching: bool    // the heartbeat task is still running
    var stopping: bool
    ghost var history: History

    ghost predicate Valid()
      reads this, book
    {
      && book.Valid() && Heap(pendingArrivals, seqCounter)
      && forall e :: e in pendingArrivals ==> !e.payload.Market?
    }

    ghost function AccountView(): Account
      reads this
    {
      Account(cash, inventory, feesPaid, rebatesReceived, fills, lastMid)
    }

    ghost function CoreView(): Core
      reads this, book
      requires book.Valid()
    {
      Core(book.View(), AccountView(), pendingPlaces)
    }

    ghost function DeskView(): Desk
      reads this, book
      requires Valid()
    {
      Desk(CoreView(), Queued(pendingArrivals), nextOrderId, latencyDraws, nowMs, history)
    }

    ghost function View(): P.Trader<S>
      reads this, book, killSwitch
      requires Valid()
    {
      P.Trader(DeskView(), ourOrderIds, strategyState, killSwitch.View(), haltLogged, haltRecords, watching, stopping,
               seqCounter)
    }

    ghost function Setup(): P.PaperSetup<S> {
      P.PaperSetup(category, latency, strategy, killSwitch.limits)
    }

    constructor (book: L2OrderBook, latency: Latency, category: FeeCategory, strategy: Strategy<S>, initial: S,
                 killSwitch: KillSwitch)
      requires book.Valid() && killSwitch.View() == ARMED
      ensures Valid() && this.book == book && this.killSwitch == killSwitch
      ensures Setup() == P.PaperSetup(category, latency, strategy, killSwitch.limits)
      ensures View() == P.Fresh(book.View(), initial)
    {
      this.book, this.latency, this.category := book, latency, category;
      this.strategy, this.strategyState, this.killSwitch := strategy, initial, killSwitch;
      pendingArrivals, seqCounter, latencyDraws, nowMs := [], 0, 0, 0;
      cash, inventory, feesPaid, rebatesReceived, fills, lastMid := 0.0, 0.0, 0.0, 0.0, [], None;
      nextOrderId, pendingPlaces, ourOrderIds := 1, map[], {};
      haltLogged, haltRecords, watching, stopping := false, 0, true, false;
      history := NO_HISTORY;
    }

    // ---------- the interface for strategies ----------

    method PushArrival(payload: Payload)
      requires Valid() && !payload.Market?
      modifies this`pendingArrivals, this`seqCounter, this`latencyDraws
      ensures Valid() && latencyDraws == old(latencyDraws) + 1 && seqCounter == old(seqCounter) + 1
      ensures Queued(pendingArrivals) == Enqueue(old(Queued(pendingArrivals)),
                                                 Timed(latency(old(latencyDraws), nowMs), payload))
    {
      var arrivalMs := latency(latencyDraws, nowMs);
      latencyDraws := latencyDraws + 1;
      pendingArrivals := Push(pendingArrivals, SimEvent(arrivalMs, seqCounter, payload));
      seqCounter := seqCounter + 1;
    }

    /** None is the error for a size that is not positive. */
    method PlaceLimit(side: Side, price: real, size: real, postOnly: bool) returns (id: Option<OrderId>)
      requires Valid()
      modifies this`pendingArrivals, this`seqCounter, this`latencyDraws, this`nextOrderId, this`pendingPlaces,
               this`history
      ensures Valid()
      ensures size <= 0.0 ==> id == None && DeskView() == old(DeskView()) && seqCounter == old(seqCounter)
      ensures size > 0.0 ==> seqCounter == old(seqCounter) + 1
      ensures size > 0.0 ==>
                && id == Some(old(nextOrderId))
                && DeskView() == TradingDesk.PlaceLimit(latency, old(DeskView()), side, price, size, postOnly)
    {
      hide Enqueue, Heap, Queued, L2OrderBook.View, L2OrderBook.Valid;
      if size <= 0.0 {
        return None;
      }
      var p := Placement(nextOrderId, side, price, size, postOnly);
      nextOrderId := nextOrderId + 1;
      pendingPlaces := pendingPlaces[p.id := p];
      PushArrival(PlaceArrival(p));
      history := history.(placed := history.placed[p.id := p]);
      return Some(p.id);
    }

    method Cancel(id: OrderId)
      requires Valid()
      modifies this`pendingArrivals, this`seqCounter, this`latencyDraws, this`history
      ensures Valid() && DeskView() == RequestCancel(latency, old(DeskView()), id) && seqCounter == old(seqCounter) + 1
    {
      PushArrival(CancelArrival(id));
      history := history.(cancelRequested := history.cancelRequested + {id});
    }

    // ---------- fills ----------

    method RefreshLastMid()
      requires Valid()
      modifies this`lastMid
      ensures Valid() && CoreView() == WithMid(old(CoreView()))
    {
      var mid := book.MidPrice();
      if mid.Some? {
        lastMid := mid;
      }
    }

    /** Books the fill and forgets the id once the book no longer has the order. */
    method RecordFill(id: OrderId, side: Side, price: real, size: real, isMaker: bool, queueAhead: real,
                      timeInBook: int, tsMs: int)
      requires Valid()
      modifies this`cash, this`inventory, this`feesPaid, this`rebatesReceived, this`fills, this`ourOrderIds
      ensures AccountView() == Booked(old(AccountView()),
                Fill(tsMs, id, side, price, size, isMaker, if isMaker then 0.0 else TakerFee(price, size, category),
                     if isMaker then MakerRebate(price, size, category) else 0.0, queueAhead, timeInBook))
      ensures ourOrderIds == if Tracks(book.View().orders, id) then old(ourOrderIds) else old(ourOrderIds) - {id}
    {
      hide TakerFee, MakerRebate;
      var fee, rebate;
      if isMaker {
        fee, rebate := 0.0, MakerRebate(price, size, category);
      } else {
        fee, rebate := TakerFee(price, size, category), 0.0;
      }
      var sign := Sign(side);
      var notional := price * size;
      cash := cash + (-sign * notional + rebate - fee);
      inventory := inventory + sign * size;
      feesPaid := feesPaid + fee;
      rebatesReceived := rebatesReceived + rebate;
      fills := fills + [Fill(tsMs, id, side, price, size, isMaker, fee, rebate, queueAhead, timeInBook)];
      book.TracksKeys(id);
      if id !in book.ourOrders {
        ourOrderIds := ourOrderIds - {id};
      }
    }

    method ApplyTradeFills(made: seq<BookFill>, price: real, ts: Millis)
      requires Valid()
      modifies this`cash, this`inventory, this`feesPaid, this`rebatesReceived, this`fills, this`ourOrderIds
      ensures Valid() && AccountView() == BookedAll(old(AccountView()), made, price, ts, category)
      ensures ourOrderIds == P.DropFilled(old(ourOrderIds), made, book.View().orders)
    {
      hide Heap, Tracks;
      for i := 0 to |made|
        invariant AccountView() == BookedAll(old(AccountView()), made[..i], price, ts, category)
        invariant ourOrderIds == P.DropFilled(old(ourOrderIds), made[..i], book.View().orders)
      {
        assert made[..i + 1][..i] == made[..i];
        var f := made[i];
        RecordFill(f.id, f.side, price, f.size, true, f.queueAhead, f.timeInBook, ts);
      }
      assert made[..|made|] == made;
    }

    // ---------- market events ----------

    method ApplyPriceChanges(changes: seq<PriceLevelChange>)
      requires Valid()
      modifies book
      ensures Valid() && book.View() == ApplyChanges(old(book.View()), changes)
    {
      for i := 0 to |changes|
        invariant Valid() && book.View() == ApplyChanges(old(book.View()), changes[..i])
      {
        assert changes[..i + 1][..i] == changes[..i];
        book.ApplyLevelChange(changes[i].side, changes[i].price, changes[i].size);
      }
      assert changes[..|changes|] == changes;
    }

    method ApplyMarketEvent(event: MarketEvent)
      requires Valid()
      modifies this`cash, this`inventory, this`feesPaid, this`rebatesReceived, this`fills, this`lastMid,
               this`ourOrderIds, book
      ensures Valid() && CoreView() == ApplyMarket(category, old(CoreView()), event)
      ensures ourOrderIds == P.IdsAfter(old(ourOrderIds), old(CoreView()), CoreView(), OnTape(event))
    {
      hide Heap;
      match event
      case BookSnapshot(_, bids, asks) =>
        book.ApplyBookSnapshot(bids, asks);
        RefreshLastMid();
      case PriceChange(_, changes) =>
        ApplyPriceChanges(changes);
        RefreshLastMid();
      case LastTrade(ts, price, size, side) =>
        var made := book.ProcessTrade(price, size, side, ts);
        ApplyTradeFills(made, price, ts);
        RefreshLastMid();
      case TickSizeChange(_, tick) =>
        book.SetTick(tick);
    }

    // ---------- arrivals ----------

    method Opposite(side: Side) returns (top: Option<(real, real)>)
      requires Valid()
      ensures top == TradingDesk.Opposite(book.View(), side)
    {
      top := if side.Bid? then book.BestAskLevel() else book.BestBidLevel();
    }

    method Rest(p: Placement, size: real)
      requires Valid() && CanAdd(book.View(), p.id, size)
      modifies book, this`ourOrderIds
      ensures Valid() && book.View() == AddOrder(old(book.View()), p.id, p.side, p.price, size, nowMs)
      ensures ourOrderIds == old(ourOrderIds) + {p.id} && Tracks(book.View().orders, p.id)
    {
      RestsOnceAdded(book.View(), p, size, nowMs);
      var outcome := book.AddOurOrder(p.id, p.side, p.price, size, nowMs);
      assert outcome.Added?;
      ourOrderIds := ourOrderIds + {p.id};
    }

    method HandlePlaceArrival(p: Placement)
      requires Valid() && (p.id in pendingPlaces ==> CanAdd(book.View(), p.id, p.size))
      modifies this`cash, this`inventory, this`feesPaid, this`rebatesReceived, this`fills, this`pendingPlaces,
               this`ourOrderIds, book
      ensures Valid() && CoreView() == ApplyPlace(category, old(CoreView()), p, nowMs)
      ensures ourOrderIds == P.IdsAfter(old(ourOrderIds), old(CoreView()), CoreView(), Timed(nowMs, PlaceArrival(p)))
    {
      hide Heap, AddOrder;
      if p.id !in pendingPlaces {
        return;
      }
      pendingPlaces := pendingPlaces - {p.id};
      if !p.postOnly {
        var top := Opposite(p.side);
        if top.Some? && (if p.side.Bid? then p.price >= top.value.0 else p.price <= top.value.0) {
          var fillPrice, available := top.value.0, top.value.1;
          var fillSize := Min(p.size, available);
          RecordFill(p.id, p.side, fillPrice, fillSize, false, 0.0, 0, nowMs);
          var remainder := p.size - fillSize;
          if remainder > 0.0 {
            Rest(p, remainder);
          }
          return;
        }
      }
      Rest(p, p.size);
    }

    method HandleCancelArrival(id: OrderId)
      requires Valid()
      modifies this`pendingPlaces, this`ourOrderIds, book
      ensures Valid() && CoreView() == ApplyCancel(old(CoreView()), id) && ourOrderIds == old(ourOrderIds) - {id}
    {
      book.RemoveOurOrder(id);
      ourOrderIds := ourOrderIds - {id};
      pendingPlaces := pendingPlaces - {id};
    }

    method HandleArrival(e: SimEvent)
      requires Valid() && !e.payload.Market? && nowMs >= e.timestampMs
      requires e.payload.PlaceArrival? && e.payload.order.id in pendingPlaces ==>
                 CanAdd(book.View(), e.payload.order.id, e.payload.order.size)
      modifies this`cash, this`inventory, this`feesPaid, this`rebatesReceived, this`fills, this`pendingPlaces,
               this`ourOrderIds, this`history, book
      ensures Valid() && CoreView() == Apply(category, old(CoreView()), Timed(nowMs, e.payload))
      ensures ourOrderIds == P.IdsAfter(old(ourOrderIds), old(CoreView()), CoreView(), Timed(nowMs, e.payload))
      ensures history == Noted(old(history), old(CoreView()), CoreView(), Timed(nowMs, e.payload))
    {
      ghost var before := CoreView();
      if e.payload.PlaceArrival? {
        HandlePlaceArrival(e.payload.order);
      } else {
        HandleCancelArrival(e.payload.id);
      }
      history := Noted(history, before, CoreView(), Timed(nowMs, e.payload));
    }

    /** Pops the earliest arrival and moves the clock to it, never back. */
    method PopDue() returns (e: SimEvent)
      requires Valid() && pendingArrivals != []
      modifies this`pendingArrivals, this`nowMs
      ensures Valid() && !e.payload.Market? && e.timestampMs <= nowMs && CoreView() == old(CoreView())
      ensures Queued(old(pendingArrivals)) == [Bare(e)] + Queued(pendingArrivals)
      ensures nowMs == if e.timestampMs > old(nowMs) then e.timestampMs else old(nowMs)
      ensures |pendingArrivals| < old(|pendingArrivals|)
    {
      hide Heap;
      Backtesting.QueuedEmpty(pendingArrivals);
      var rest;
      e, rest := Pop(pendingArrivals, seqCounter);
      assert |Queued(pendingArrivals)| == 1 + |Queued(rest)|;
      pendingArrivals := rest;
      if e.timestampMs > nowMs {
        nowMs := e.timestampMs;
      }
    }

    /** One turn of the drain loop. */
    method DrainArrival()
      requires Valid() && pendingArrivals != [] && Consistent(DeskView())
      modifies this, book
      ensures Valid() && View() == P.DrainOne(category, old(View()))
      ensures |pendingArrivals| < old(|pendingArrivals|)
    {
      hide P.IdsAfter, DeskView;
      DeliverDue();
    }

    /** Pops the earliest arrival and delivers it. */
    method DeliverDue()
      requires Valid() && pendingArrivals != [] && Consistent(DeskView())
      modifies this`pendingArrivals, this`nowMs
      modifies this`cash, this`inventory, this`feesPaid, this`rebatesReceived, this`fills, this`pendingPlaces,
               this`ourOrderIds, this`history, book
      ensures Valid() && old(DeskView()).queue != [] && DeskView() == DeliverHead(category, P.Due(old(DeskView())))
      ensures ourOrderIds == P.IdsAfter(old(ourOrderIds), old(DeskView()).core, DeskView().core,
                                        P.Due(old(DeskView())).queue[0])
      ensures |pendingArrivals| < old(|pendingArrivals|)
    {
      hide Heap, Queued, Apply, Noted, Consistent, P.IdsAfter, L2OrderBook.View, L2OrderBook.Valid;
      Backtesting.QueuedEmpty(pendingArrivals);
      Backtesting.AcceptsHead(DeskView());
      var e := PopDue();
      HandleArrival(e);
    }

    method DrainArrivalsUpTo(ts: Millis)
      requires Valid() && Trading(View())
      modifies this, book
      ensures Valid() && View() == P.Drained(category, old(View()), ts)
    {
      hide Heap, P.DrainOne, Trading;
      ghost var drained := P.Drained(category, View(), ts);
      while pendingArrivals != [] && pendingArrivals[0].timestampMs <= ts
        invariant Valid() && Trading(View()) && P.Drained(category, View(), ts) == drained
        decreases |pendingArrivals|
      {
        assert Queued(pendingArrivals)[0] == Bare(pendingArrivals[0]);
        assert Consistent(DeskView()) by { TradingIsConsistent(View()); }
        DrainOneKeeps(category, View());
        DrainArrival();
      }
      assert pendingArrivals != [] ==> Queued(pendingArrivals)[0] == Bare(pendingArrivals[0]);
    }

    // ---------- risk ----------

    method TickKillSwitch(nowS: real)
      requires Valid() && killSwitch.limits.Valid()
      modifies killSwitch
      ensures Valid() && View() == P.SwitchTicked(killSwitch.limits, old(View()), nowS)
    {
      var pnl := if lastMid.None? then cash else cash + inventory * lastMid.value;
      killSwitch.Tick(nowS, pnl, inventory);
    }

    /** Takes every order of ours off the book, one by one, in no particular order. */
    method RemoveOurOrders()
      requires Valid()
      modifies book
      ensures Valid() && book.View() == old(book.View()).(orders := P.WithoutAll(old(book.View()).orders, ourOrderIds))
    {
      hide Heap;
      var left := ourOrderIds;
      ghost var orders := book.View().orders;
      while left != {}
        invariant Valid() && book.View() == old(book.View()).(orders := book.View().orders)
        invariant P.WithoutAll(book.View().orders, left) == P.WithoutAll(orders, ourOrderIds)
        decreases left
      {
        var id :| id in left;
        WithoutAllSplits(book.View().orders, left, id);
        book.RemoveOurOrder(id);
        left := left - {id};
      }
      WithoutNone(book.View().orders);
    }

    method ForgetOrders()
      requires Valid()
      modifies this`ourOrderIds, this`pendingPlaces, this`pendingArrivals
      ensures Valid() && ourOrderIds == {} && pendingPlaces == map[] && Queued(pendingArrivals) == []
    {
      ourOrderIds := {};
      pendingPlaces := map[];
      pendingArrivals := [];
    }

    method ClearDesk()
      requires Valid()
      modifies this`ourOrderIds, this`pendingPlaces, this`pendingArrivals, this`history, book
      ensures Valid() && ourOrderIds == {} && DeskView() == P.Cleared(old(DeskView()), old(ourOrderIds))
    {
      hide Heap, Queued, P.WithoutAll, L2OrderBook.View, L2OrderBook.Valid;
      RemoveOurOrders();
      history := history.(cancelled := history.cancelled + (ourOrderIds + pendingPlaces.Keys));
      ForgetOrders();
    }

    /** The first call cleans up and writes one halt record; later calls do nothing. */
    method OnHalt()
      requires Valid()
      modifies this`ourOrderIds, this`pendingPlaces, this`pendingArrivals, this`haltLogged, this`haltRecords,
               this`history, book
      ensures Valid() && View() == P.Halted(old(View()))
    {
      hide Heap, Queued, P.Cleared, L2OrderBook.View, L2OrderBook.Valid;
      if haltLogged {
        return;
      }
      ClearDesk();
      haltRecords := haltRecords + 1;
      haltLogged := true;
    }

    // ---------- the feed task ----------

    method PerformActions(actions: seq<Action>)
      requires Valid()
      modifies this`pendingArrivals, this`seqCounter, this`latencyDraws, this`nextOrderId, this`pendingPlaces,
               this`history
      ensures Valid() && DeskView() == PerformAll(latency, old(DeskView()), Allowed(actions))
      ensures seqCounter == old(seqCounter) + |Allowed(actions)|
    {
      hide Heap, Enqueue, TradingDesk.PlaceLimit, RequestCancel;
      var i := 0;
      assert actions[..0] == [];
      while i < |actions|
        invariant 0 <= i <= |actions| && Valid()
        invariant forall k :: 0 <= k < i ==> Acceptable(actions[k])
        invariant DeskView() == PerformAll(latency, old(DeskView()), actions[..i]) && seqCounter == old(seqCounter) + i
      {
        assert actions[..i + 1][..i] == actions[..i];
        match actions[i] {
          case PlaceOrder(side, price, size, postOnly) =>
            var id := PlaceLimit(side, price, size, postOnly);
            if id == None {
              Backtesting.AllowedUntil(actions, i);
              return;
            }
          case CancelOrder(id) => Cancel(id);
        }
        i := i + 1;
      }
      assert actions[..|actions|] == actions;
      Backtesting.AllowedUntil(actions, i);
    }

    /** The callback; an error it raises is logged and the trader carries on. */
    method CallStrategy(event: MarketEvent, seqNo: nat)
      requires Valid()
      modifies this`strategyState, this`pendingArrivals, this`seqCounter, this`latencyDraws, this`nextOrderId,
               this`pendingPlaces, this`history
      ensures Valid() && View() == P.StrategyCalled(Setup(), old(View()), event, seqNo)
    {
      hide Heap, Enqueue, PerformAll;
      var view := TradingDesk.View(nowMs, inventory, book.View(), nextOrderId);
      var reply := strategy.onEvent(strategyState, view, OnTape(event), seqNo);
      PerformActions(reply.actions);
      strategyState := reply.state;
      history := history.(calls := history.calls + [Call(OnTape(event), seqNo, view, reply.actions)]);
    }

    method ApplyOnTime(event: MarketEvent)
      requires Valid()
      modifies this, book
      ensures Valid() && View() == P.MarketApplied(category, old(View()), event)
    {
      hide P.IdsAfter, DeskView, Delivered;
      DeliverOnTime(event);
    }

    /** Advances the clock to the event and applies it. */
    method DeliverOnTime(event: MarketEvent)
      requires Valid()
      modifies this`nowMs, this`seqCounter, this`history
      modifies this`cash, this`inventory, this`feesPaid, this`rebatesReceived, this`fills, this`lastMid,
               this`ourOrderIds, book
      ensures Valid() && seqCounter == old(seqCounter) + 1
      ensures var before := old(DeskView());
              && DeskView() == Delivered(category, before, OnTape(event))
                               .(now := if event.ts > before.now then event.ts else before.now)
              && ourOrderIds == P.IdsAfter(old(ourOrderIds), before.core, DeskView().core, OnTape(event))
    {
      hide Heap, ApplyMarket, P.IdsAfter, L2OrderBook.View, L2OrderBook.Valid;
      if event.ts > nowMs {
        nowMs := event.ts;
      }
      seqCounter := seqCounter + 1;
      assert Heap(pendingArrivals, seqCounter) by { CounterMayGrow(pendingArrivals, old(seqCounter), seqCounter); }
      ApplyMarketEvent(event);
    }

    method ProcessMarketEvent(event: MarketEvent, nowS: real)
      requires Valid() && killSwitch.limits.Valid() && Trading(View())
      modifies this, book, killSwitch
      ensures Valid() && View() == P.EventProcessed(Setup(), old(View()), event, nowS)
    {
      hide Heap, P.Drained, P.MarketApplied, P.SwitchTicked, P.Halted, P.StrategyCalled, Trading;
      DrainArrivalsUpTo(event.ts);
      var seqNo := seqCounter;
      ApplyOnTime(event);
      TickKillSwitch(nowS);
      if killSwitch.halted {
        OnHalt();
        return;
      }
      CallStrategy(event, seqNo);
    }

    /** A feed message: it is a sign of life even when it is not about this asset (None). */
    method OnWsEvent(event: Option<MarketEvent>, receivedS: real, tickedS: real)
      requires Valid() && killSwitch.limits.Valid() && AtRest(View())
      modifies this, book, killSwitch
      ensures Valid() && AtRest(View())
      ensures View() == P.Handle(Setup(), old(View()), if event.None? then P.OtherMessage(receivedS)
                                                       else P.MarketMessage(event.value, receivedS, tickedS))
    {
      hide Heap, P.EventProcessed, Consistent, AllScheduled, Clean, IdsMatch;
      HandleKeepsAtRest(Setup(), View(), if event.None? then P.OtherMessage(receivedS)
                        else P.MarketMessage(event.value, receivedS, tickedS));
      killSwitch.NoteWsMessage(receivedS);
      if event.Some? {
        ProcessMarketEvent(event.value, tickedS);
      }
    }

    // ---------- the heartbeat task ----------

    /** The watchdog wakes from its sleep; it ends after a halt, or once a stop was requested. */
    method HeartbeatTurn(nowS: real)
      requires Valid() && killSwitch.limits.Valid() && AtRest(View())
      modifies this, book, killSwitch
      ensures Valid() && AtRest(View()) && View() == P.Handle(Setup(), old(View()), P.WatchdogWakes(nowS))
    {
      hide Heap, P.Halted, Consistent, AllScheduled, Clean, IdsMatch;
      HandleKeepsAtRest(Setup(), View(), P.WatchdogWakes(nowS));
      if !watching {
        return;
      }
      killSwitch.HeartbeatCheck(nowS);
      if killSwitch.halted {
        OnHalt();
        watching := false;
        return;
      }
      watching := !stopping;
    }

    method Stop()
      requires Valid()
      modifies this`stopping
      ensures Valid() && View() == old(View()).(stopping := true)
    {
      stopping := true;
    }
  }

  lemma CounterMayGrow(heap: seq<SimEvent>, counter: nat, later: nat)
    requires Heap(heap, counter) && counter <= later
    ensures Heap(heap, later)
  {
  }

  lemma TradingIsConsistent<S>(t: P.Trader<S>)
    requires Trading(t)
    ensures Consistent(t.desk)
  {
  }

  lemma {:induction false} WithoutAllSplits(orders: seq<Resting>, ids: set<OrderId>, id: OrderId)
    requires id in ids
    ensures P.WithoutAll(Without(orders, id), ids - {id}) == P.WithoutAll(orders, ids)
  {
    if orders != [] {
      WithoutAllSplits(orders[1..], ids, id);
      if orders[0].id != id {
        assert ([orders[0]] + Without(orders[1..], id))[1..] == Without(orders[1..], id);
      }
    }
  }

  lemma {:induction false} WithoutNone(orders: seq<Resting>)
    ensures P.WithoutAll(orders, {}) == orders
  {
    if orders != [] { WithoutNone(orders[1..]); }
  }
}
