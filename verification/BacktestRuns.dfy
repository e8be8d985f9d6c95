/** What holds in every state a backtest can reach, for any strategy and any latency. */
module BacktestRuns {
  import opened Prelude
  import opened OrderBook
  import opened BookInvariant
  import opened TradePriority
  import opened Fees
  import opened Metrics
  import opened TradingDesk
  import opened DeskInvariant
  import B = Backtest

  // ---------- consistency of every reachable state ----------

  lemma RefillKeeps<S>(sim: B.Sim<S>)
    requires Consistent(sim.desk)
    ensures Consistent(B.Refilled(sim).desk)
    ensures AllScheduled(sim.desk) ==> AllScheduled(B.Refilled(sim).desk)
  {
    if sim.tape != [] {
      var e, after := OnTape(sim.tape[0]), B.Refilled(sim).desk;
      EnqueueKeepsKnown(sim.desk.queue, e, sim.desk.history.placed);
      forall id | id in after.core.pending && AllScheduled(sim.desk)
        ensures Scheduled(after.queue, after.core.pending[id]) {
        EnqueueKeepsScheduled(sim.desk.queue, e, after.core.pending[id]);
      }
    }
  }

  lemma StepKeepsConsistent<S>(setup: B.Setup<S>, sim: B.Sim<S>)
    requires Consistent(sim.desk) && AllScheduled(sim.desk)
    ensures Consistent(B.Step(setup, sim).desk) && AllScheduled(B.Step(setup, sim).desk)
  {
    if !B.Done(sim) {
      DeliverHeadKeeps(setup.category, sim.desk);
      RefillKeeps(sim.(desk := DeliverHead(setup.category, sim.desk)));
      CalledKeepsConsistent(setup.strategy, setup.latency, B.Applied(setup, sim).desk, sim.state, sim.desk.queue[0],
                            B.HeadNumber(sim));
    }
  }

  lemma {:induction false} RunConsistent<S>(setup: B.Setup<S>, book: Book, tape: seq<MarketEvent>, state: S, n: nat)
    requires Wf(book) && book.orders == []
    ensures Consistent(B.After(setup, B.Start(book, tape, state), n).desk)
    ensures AllScheduled(B.After(setup, B.Start(book, tape, state), n).desk)
  {
    if n == 0 {
      RefillKeeps(B.Unprimed(book, tape, state));
    } else {
      RunConsistent(setup, book, tape, state, n - 1);
      StepKeepsConsistent(setup, B.After(setup, B.Start(book, tape, state), n - 1));
    }
  }

  // ---------- order lifecycle ----------

  datatype Phase = Pending | Rests(size: real) | Dead

  function PhaseOf(core: Core, id: OrderId): Phase {
    if id in core.pending then Pending
    else if Tracks(core.book.orders, id) then Rests(Find(core.book.orders, id).value.size)
    else Dead
  }

  ghost predicate Lifecycle(d: Desk, id: OrderId)
    requires id in d.history.placed
  {
    var order, filled := d.history.placed[id], FilledSize(d.core.account.fills, id);
    && !(id in d.core.pending && Tracks(d.core.book.orders, id))
    && (id in d.history.cancelled ==> PhaseOf(d.core, id) == Dead && 0.0 <= filled <= order.size)
    && (id !in d.history.cancelled ==>
          match PhaseOf(d.core, id)
          case Pending => filled == 0.0 && d.core.pending[id] == order && Scheduled(d.queue, order)
          case Rests(size) => size > 0.0 && filled + size == order.size
          case Dead => filled == order.size)
  }

  lemma ConsistentLifecycle(d: Desk, id: OrderId)
    requires Consistent(d) && AllScheduled(d) && id in d.history.placed
    ensures Lifecycle(d, id)
  {
    assert SizeAccountedFor(d.core, d.history, id);
    RestingSizeIsFound(d.core.book.orders, id);
    if id in d.core.pending {
      assert PendsAsPlaced(d.core, id, d.history);
    }
    if id in d.history.cancelled {
    } else if Tracks(d.core.book.orders, id) {
      assert WfOrder(Find(d.core.book.orders, id).value);
    }
  }

  /**
   In every reachable state every order ever placed is in exactly one phase. While it has not been
   cancelled its placed size is what it was filled plus what is pending or resting; a pending order
   is unfilled and has its arrival on the queue; a cancelled one neither rests nor pends.
   */
  lemma EveryOrderAccountedFor<S>(setup: B.Setup<S>, book: Book, tape: seq<MarketEvent>, state: S, n: nat, id: OrderId)
    requires Wf(book) && book.orders == []
    ensures var d := B.After(setup, B.Start(book, tape, state), n).desk;
            (id in d.history.placed <==> 1 <= id < d.nextId) && (id in d.history.placed ==> Lifecycle(d, id))
  {
    RunConsistent(setup, book, tape, state, n);
    var d := B.After(setup, B.Start(book, tape, state), n).desk;
    if id in d.history.placed {
      ConsistentLifecycle(d, id);
    }
  }

  lemma {:induction false} PerformAllKeepsCore(latency: Latency, d: Desk, actions: seq<Action>)
    requires forall i :: 0 <= i < |actions| ==> Acceptable(actions[i])
    ensures var after := PerformAll(latency, d, actions);
            && after.core.book == d.core.book && after.core.account == d.core.account
            && after.history.cancelled == d.history.cancelled && after.now == d.now
               && after.history.rested == d.history.rested
            && after.history.calls == d.history.calls
  {
    if actions != [] { PerformAllKeepsCore(latency, d, actions[..|actions| - 1]); }
  }

  /** A step changes book and accounts only by delivering the event at the head of the queue. */
  lemma StepIsDelivery<S>(setup: B.Setup<S>, sim: B.Sim<S>)
    requires !B.Done(sim)
    ensures var before, after, e := sim.desk, B.Step(setup, sim).desk, sim.desk.queue[0];
            && after.core.book == Apply(setup.category, before.core, e).book
            && after.core.account == Apply(setup.category, before.core, e).account
            && after.history.cancelled
               == Noted(before.history, before.core, Apply(setup.category, before.core, e), e).cancelled
            && after.history.rested
               == Noted(before.history, before.core, Apply(setup.category, before.core, e), e).rested
            && after.now == e.ts
  {
    var applied := B.Applied(setup, sim).desk;
    PerformAllKeepsCore(setup.latency, applied, B.ActionsTaken(setup, sim));
  }

  /** What one event adds to the filled size of one order. */
  function Gain(core: Core, e: Timed, id: OrderId): real {
    match e.payload
    case Market(event) =>
      if event.LastTrade? then FilledBy(Traded(core.book, event.price, event.size, event.side, event.ts).fills, id)
           else 0.0
    case PlaceArrival(p) =>
      if p.id == id && id in core.pending && !p.postOnly && CrossesSpread(core.book, p.side, p.price)
      then Min(p.size, Opposite(core.book, p.side).value.1) else 0.0
    case CancelArrival(_) => 0.0
  }

  lemma GainIsFilled(category: FeeCategory, core: Core, e: Timed, id: OrderId)
    requires Accounted(core.account)
    ensures FilledSize(Apply(category, core, e).account.fills, id)
            == FilledSize(core.account.fills, id) + Gain(core, e, id)
  {
    match e.payload
    case Market(event) =>
      if event.LastTrade? {
        var walked := Traded(core.book, event.price, event.size, event.side, event.ts);
        BookedAllKeeps(core.account, walked.fills, event.price, event.ts, category);
      }
    case PlaceArrival(p) => TakerGain(category, core, p, e.ts, id);
    case CancelArrival(_) =>
  }

  lemma TakerGain(category: FeeCategory, core: Core, p: Placement, now: Millis, id: OrderId)
    requires Accounted(core.account)
    ensures FilledSize(ApplyPlace(category, core, p, now).account.fills, id)
            == FilledSize(core.account.fills, id) + Gain(core, Timed(now, PlaceArrival(p)), id)
  {
    if p.id in core.pending {
      if !p.postOnly && CrossesSpread(core.book, p.side, p.price) {
        var top := Opposite(core.book, p.side).value;
      }
    }
  }

  /** An order that neither rests nor pends gains nothing. */
  lemma NoGainOnceGone(core: Core, e: Timed, id: OrderId)
    requires Wf(core.book) && !Tracks(core.book.orders, id) && id !in core.pending
    ensures Gain(core, e, id) == 0.0
  {
    if e.payload.Market? && e.payload.event.LastTrade? {
      var event := e.payload.event;
      var t := PrintOf(core.book, event.price, event.side, event.ts);
      var walked := Walk(core.book.orders, t, event.size, map[]);
      if FilledBy(walked.fills, id) != 0.0 {
        FilledByMeansFilled(walked.fills, id);
        WalkFillsOnlyTracked(core.book.orders, t, event.size, map[], id);
      }
    }
  }

  lemma FilledByMeansFilled(fills: seq<BookFill>, id: OrderId)
    requires FilledBy(fills, id) != 0.0
    ensures Filled(fills, id)
  {
    if fills[0].id != id {
      FilledByMeansFilled(fills[1..], id);
      var k :| 0 <= k < |fills[1..]| && fills[1..][k].id == id;
      assert fills[k + 1].id == id;
    }
  }

  function DeskAt<S>(setup: B.Setup<S>, book: Book, tape: seq<MarketEvent>, state: S, n: nat): Desk {
    B.After(setup, B.Start(book, tape, state), n).desk
  }

  lemma StepKeepsCancelled<S>(setup: B.Setup<S>, sim: B.Sim<S>, id: OrderId)
    requires Consistent(sim.desk) && id in sim.desk.history.cancelled
    ensures var after := B.Step(setup, sim).desk;
            && id in after.history.cancelled
            && FilledSize(after.core.account.fills, id) == FilledSize(sim.desk.core.account.fills, id)
  {
    if !B.Done(sim) {
      StepIsDelivery(setup, sim);
      NoGainOnceGone(sim.desk.core, sim.desk.queue[0], id);
      GainIsFilled(setup.category, sim.desk.core, sim.desk.queue[0], id);
    }
  }

  lemma {:induction false} CancelledKeepsFills<S>(setup: B.Setup<S>, book: Book, tape: seq<MarketEvent>, state: S,
                                                  n: nat, m: nat, id: OrderId)
    requires Wf(book) && book.orders == [] && n <= m
    requires id in DeskAt(setup, book, tape, state, n).history.cancelled
    ensures id in DeskAt(setup, book, tape, state, m).history.cancelled
    ensures FilledSize(DeskAt(setup, book, tape, state, m).core.account.fills, id)
            == FilledSize(DeskAt(setup, book, tape, state, n).core.account.fills, id)
  {
    hide FilledSize, B.Step, Consistent, B.Start;
    if n < m {
      CancelledKeepsFills(setup, book, tape, state, n, m - 1, id);
      RunConsistent(setup, book, tape, state, m - 1);
      StepKeepsCancelled(setup, B.After(setup, B.Start(book, tape, state), m - 1), id);
    }
  }

  /** Once the cancel of an order has arrived it never rests and is never filled again. */
  lemma CancelledNeverTrades<S>(setup: B.Setup<S>, book: Book, tape: seq<MarketEvent>, state: S,
                                n: nat, m: nat, id: OrderId)
    requires Wf(book) && book.orders == [] && n <= m
    requires id in DeskAt(setup, book, tape, state, n).history.cancelled
    ensures PhaseOf(DeskAt(setup, book, tape, state, m).core, id) == Dead
    ensures FilledSize(DeskAt(setup, book, tape, state, m).core.account.fills, id)
            == FilledSize(DeskAt(setup, book, tape, state, n).core.account.fills, id)
  {
    CancelledKeepsFills(setup, book, tape, state, n, m, id);
    RunConsistent(setup, book, tape, state, m);
  }

  /** The book never refuses an order that arrives: its id is new to the book and its size positive. */
  lemma ArrivalIsAccepted<S>(setup: B.Setup<S>, book: Book, tape: seq<MarketEvent>, state: S, n: nat)
    requires Wf(book) && book.orders == []
    ensures var d := B.After(setup, B.Start(book, tape, state), n).desk;
            d.queue != [] && d.queue[0].payload.PlaceArrival? ==>
              var p := d.queue[0].payload.order;
              p.id in d.core.pending ==> CanAdd(d.core.book, p.id, p.size)
  {
    RunConsistent(setup, book, tape, state, n);
    var d := B.After(setup, B.Start(book, tape, state), n).desk;
    if d.queue != [] && d.queue[0].payload.PlaceArrival? && d.queue[0].payload.order.id in d.core.pending {
      assert PendsAsPlaced(d.core, d.queue[0].payload.order.id, d.history);
      assert Known(d.queue[0].payload.order, d.history.placed);
    }
  }

  // ---------- accounts, limits ----------

  /** Running totals are the folds over the fill list, and no fill is worse than its order's limit. */
  lemma AccountsAreFolds<S>(setup: B.Setup<S>, book: Book, tape: seq<MarketEvent>, state: S, n: nat)
    requires Wf(book) && book.orders == []
    ensures var d := B.After(setup, B.Start(book, tape, state), n).desk;
            var account := d.core.account;
            && account.cash == CashOf(account.fills) && account.inventory == InventoryOf(account.fills)
            && account.feesPaid == FeesOf(account.fills) && account.rebatesReceived == RebatesOf(account.fills)
            && (forall i :: 0 <= i < |account.fills| ==> WithinLimit(account.fills[i], d.history.placed))
  {
    RunConsistent(setup, book, tape, state, n);
  }

  lemma SameTickIsWithinATick(a: real, b: real, tick: Tick)
    requires SameTickLevel(a, b, tick)
    ensures a <= b + tick && b <= a + tick
  {
    RoundIsNearest(a / tick);
    RoundIsNearest(b / tick);
    WithinScaled(a, b, tick);
  }

  lemma WithinScaled(a: real, b: real, tick: real)
    requires tick > 0.0 && -1.0 <= a / tick - b / tick <= 1.0
    ensures a <= b + tick && b <= a + tick
  {
    assert a / tick - b / tick == (a - b) / tick;
    var r := (a - b) / tick;
    assert r * tick == a - b;
    assert r * tick <= 1.0 * tick;
    assert (-1.0) * tick <= r * tick;
  }

  /** Each fill of a trade is within one tick, as it is now, of the limit of the order it fills. */
  ghost predicate WithinTick(f: Fill, placed: map<OrderId, Placement>, tick: Tick) {
    && f.id in placed
    && f.price <= placed[f.id].price + tick && placed[f.id].price <= f.price + tick
  }

  lemma TradeFillWithinTick(d: Desk, event: MarketEvent, k: nat)
    requires Consistent(d) && event.LastTrade?
    requires k < |Traded(d.core.book, event.price, event.size, event.side, event.ts).fills|
    ensures var f := Traded(d.core.book, event.price, event.size, event.side, event.ts).fills[k];
            && f.id in d.history.placed
            && event.price <= d.history.placed[f.id].price + d.core.book.tick
            && d.history.placed[f.id].price <= event.price + d.core.book.tick
  {
    var book := d.core.book;
    var t := PrintOf(book, event.price, event.side, event.ts);
    FilledInPriorityOrder(book, event.price, event.size, event.side, event.ts);
    MatchingMember(book.orders, t, k);
    var o := Matching(book.orders, t)[k];
    var i :| 0 <= i < |book.orders| && book.orders[i] == o;
    assert RestsAsPlaced(book.orders[i], d.history);
    SameTickIsWithinATick(o.price, event.price, t.tick);
  }

  lemma EventFillWithinTick(category: FeeCategory, d: Desk, e: Timed, k: nat)
    requires Consistent(d)
    requires |d.core.account.fills| <= k < |Apply(category, d.core, e).account.fills|
    ensures var f := Apply(category, d.core, e).account.fills[k];
            f.isMaker ==> WithinTick(f, d.history.placed, d.core.book.tick)
  {
    if e.payload.Market? && e.payload.event.LastTrade? {
      var event := e.payload.event;
      var walked := Traded(d.core.book, event.price, event.size, event.side, event.ts);
      BookedAllFills(d.core.account, walked.fills, event.price, event.ts, category);
      TradeFillWithinTick(d, event, k - |d.core.account.fills|);
    } else if e.payload.PlaceArrival? {
      assert !Apply(category, d.core, e).account.fills[k].isMaker;
    }
  }

  /** Every maker fill that a step adds is within one current tick of its order's limit. */
  lemma MakerFillsWithinATick<S>(setup: B.Setup<S>, book: Book, tape: seq<MarketEvent>, state: S, n: nat, k: nat)
    requires Wf(book) && book.orders == []
    requires |DeskAt(setup, book, tape, state, n).core.account.fills| <= k
    requires k < |DeskAt(setup, book, tape, state, n + 1).core.account.fills|
    ensures var before := DeskAt(setup, book, tape, state, n);
            var f := DeskAt(setup, book, tape, state, n + 1).core.account.fills[k];
            f.isMaker ==> WithinTick(f, before.history.placed, before.core.book.tick)
  {
    RunConsistent(setup, book, tape, state, n);
    var sim := B.After(setup, B.Start(book, tape, state), n);
    StepIsDelivery(setup, sim);
    EventFillWithinTick(setup.category, sim.desk, sim.desk.queue[0], k);
  }

  // ---------- price-time priority over whole runs ----------

  lemma PositionOf(orders: seq<Resting>, id: OrderId) returns (i: nat)
    requires Tracks(orders, id)
    ensures i < |orders| && orders[i].id == id
  {
    i :| 0 <= i < |orders| && orders[i].id == id;
  }

  /** `older` came to rest before `younger`, both are live, on the same side and at the same price. */
  ghost predicate AheadAtLevel(d: Desk, older: OrderId, younger: OrderId) {
    && older in d.history.placed && younger in d.history.placed && older != younger
    && Tracks(d.core.book.orders, older) && Tracks(d.core.book.orders, younger)
    && RestedInOrder(d.history.rested, older, younger)
    && d.history.placed[older].side == d.history.placed[younger].side
    && d.history.placed[older].price == d.history.placed[younger].price
  }

  lemma OlderGoneAfterEvent(category: FeeCategory, d: Desk, e: Timed, older: OrderId, younger: OrderId)
    requires Consistent(d) && AheadAtLevel(d, older, younger) && Gain(d.core, e, younger) != 0.0
    ensures !Tracks(Apply(category, d.core, e).book.orders, older)
    ensures FilledSize(Apply(category, d.core, e).account.fills, older) == d.history.placed[older].size
  {
    var orders := d.core.book.orders;
    var i := PositionOf(orders, older);
    var j := PositionOf(orders, younger);
    assert RestsAsPlaced(orders[i], d.history) && RestsAsPlaced(orders[j], d.history);
    var event := e.payload.event;
    FilledByMeansFilled(Traded(d.core.book, event.price, event.size, event.side, event.ts).fills, younger);
    OlderOrderFirst(d.core.book, event.price, event.size, event.side, event.ts, i, j);
    GainIsFilled(category, d.core, e, older);
    FilledPlusResting(d, i);
  }

  lemma FilledPlusResting(d: Desk, i: nat)
    requires Consistent(d) && i < |d.core.book.orders|
    ensures var o := d.core.book.orders[i];
            o.id in d.history.placed && FilledSize(d.core.account.fills, o.id) + o.size == d.history.placed[o.id].size
  {
    var o := d.core.book.orders[i];
    assert RestsAsPlaced(o, d.history);
    assert SizeAccountedFor(d.core, d.history, o.id);
    assert o.id in d.core.pending ==> PendsAsPlaced(d.core, o.id, d.history);
    RestingSizeIsFound(d.core.book.orders, o.id);
  }

  /**
   Price-time priority in every run: when a step fills an order, any order of the same side and
   price that came to rest before it and was still live has been filled completely by that step.
   */
  lemma OlderFilledFirst<S>(setup: B.Setup<S>, book: Book, tape: seq<MarketEvent>, state: S, n: nat,
                            older: OrderId, younger: OrderId)
    requires Wf(book) && book.orders == []
    requires AheadAtLevel(DeskAt(setup, book, tape, state, n), older, younger)
    requires FilledSize(DeskAt(setup, book, tape, state, n + 1).core.account.fills, younger)
             != FilledSize(DeskAt(setup, book, tape, state, n).core.account.fills, younger)
    ensures var before, after := DeskAt(setup, book, tape, state, n), DeskAt(setup, book, tape, state, n + 1);
            && !Tracks(after.core.book.orders, older)
            && FilledSize(after.core.account.fills, older) == before.history.placed[older].size
  {
    var sim := B.After(setup, B.Start(book, tape, state), n);
    RunConsistent(setup, book, tape, state, n);
    StepIsDelivery(setup, sim);
    GainIsFilled(setup.category, sim.desk.core, sim.desk.queue[0], younger);
    OlderGoneAfterEvent(setup.category, sim.desk, sim.desk.queue[0], older, younger);
  }
}
