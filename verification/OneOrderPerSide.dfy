/**
 Under a constant latency a quoting strategy never has two orders of one side in the book,
 and never two orders of one side for which it has not asked a cancel.
 */
module OneOrderPerSide {
  import opened Prelude
  import opened OrderBook
  import opened BookInvariant
  import opened BookRuns
  import opened Fees
  import opened TradingDesk
  import opened DeskInvariant
  import opened EventOrder
  import opened Quoting
  import opened BacktestRuns
  import B = Backtest

  // ---------- the arrivals still to come for one side ----------

  datatype Entry = Places(id: OrderId) | Cancels(id: OrderId)

  function EntryOf(e: Timed, side: Side, placed: map<OrderId, Placement>): seq<Entry> {
    match e.payload
    case Market(_) => []
    case PlaceArrival(p) => if p.side == side then [Places(p.id)] else []
    case CancelArrival(id) => if id in placed && placed[id].side == side then [Cancels(id)] else []
  }

  /** The placements and cancels of one side that are under way, in the order they will arrive. */
  function Script(queue: seq<Timed>, side: Side, placed: map<OrderId, Placement>): seq<Entry> {
    if queue == [] then [] else EntryOf(queue[0], side, placed) + Script(queue[1..], side, placed)
  }

  /** Our orders of one side in the book. */
  function OnSide(orders: seq<Resting>, side: Side): seq<OrderId> {
    if orders == [] then []
    else (if orders[0].side == side then [orders[0].id] else []) + OnSide(orders[1..], side)
  }

  /**
   `live` rests now, `script` is still to arrive, `current` is what the strategy believes it quotes:
   every arrival finds the side empty or occupied by exactly the order it cancels, and nothing but
   the current quote can remain.
   */
  ghost predicate Alternates(live: seq<OrderId>, script: seq<Entry>, current: Option<OrderId>)
    decreases |script|
  {
    if script == [] then live == [] || (current.Some? && live == [current.value])
    else match script[0]
      case Places(id) => live == [] && Alternates([id], script[1..], current)
      case Cancels(id) => (live == [] || live == [id]) && Alternates([], script[1..], current)
  }

  lemma AlternatesWithoutLive(live: seq<OrderId>, script: seq<Entry>, current: Option<OrderId>)
    requires Alternates(live, script, current)
    ensures Alternates([], script, current)
    ensures |live| <= 1
  {
  }

  lemma {:induction false} AlternatesCancel(live: seq<OrderId>, script: seq<Entry>, id: OrderId)
    requires Alternates(live, script, Some(id))
    ensures Alternates(live, script + [Cancels(id)], None)
    decreases |script|
  {
    if script == [] {
      assert ([Cancels(id)])[1..] == [];
    } else {
      assert (script + [Cancels(id)])[1..] == script[1..] + [Cancels(id)];
      AlternatesCancel(if script[0].Places? then [script[0].id] else [], script[1..], id);
    }
  }

  lemma {:induction false} AlternatesPlace(live: seq<OrderId>, script: seq<Entry>, id: OrderId)
    requires Alternates(live, script, None)
    ensures Alternates(live, script + [Places(id)], Some(id))
    decreases |script|
  {
    if script == [] {
      assert ([Places(id)])[1..] == [];
    } else {
      assert (script + [Places(id)])[1..] == script[1..] + [Places(id)];
      AlternatesPlace(if script[0].Places? then [script[0].id] else [], script[1..], id);
    }
  }

  // ---------- scripts and the queue ----------

  lemma {:induction false} ScriptMarket(queue: seq<Timed>, e: Timed, side: Side, placed: map<OrderId, Placement>)
    requires e.payload.Market?
    ensures Script(Enqueue(queue, e), side, placed) == Script(queue, side, placed)
  {
    if queue == [] || e.ts < queue[0].ts {
      assert ([e] + queue)[1..] == queue;
    } else {
      ScriptMarket(queue[1..], e, side, placed);
      assert ([queue[0]] + Enqueue(queue[1..], e))[1..] == Enqueue(queue[1..], e);
    }
  }

  /** No arrival on the queue is later than `t`. */
  ghost predicate ArrivalsBy(queue: seq<Timed>, t: Millis) {
    forall x :: x in queue && !x.payload.Market? ==> x.ts <= t
  }

  lemma {:induction false} NoScript(queue: seq<Timed>, side: Side, placed: map<OrderId, Placement>)
    requires forall x :: x in queue ==> x.payload.Market?
    ensures Script(queue, side, placed) == []
  {
    if queue != [] { NoScript(queue[1..], side, placed); }
  }

  /** An arrival that is not earlier than any other one comes last in its side's script. */
  lemma {:induction false} ScriptLast(queue: seq<Timed>, e: Timed, side: Side, placed: map<OrderId, Placement>)
    requires Sorted(queue) && !e.payload.Market? && ArrivalsBy(queue, e.ts)
    ensures Script(Enqueue(queue, e), side, placed) == Script(queue, side, placed) + EntryOf(e, side, placed)
  {
    if queue == [] || e.ts < queue[0].ts {
      assert ([e] + queue)[1..] == queue;
      forall x | x in queue ensures x.payload.Market? {
        var i :| 0 <= i < |queue| && queue[i] == x;
        HeadIsEarliest(queue, i);
      }
      NoScript(queue, side, placed);
    } else {
      ScriptLast(queue[1..], e, side, placed);
      assert ([queue[0]] + Enqueue(queue[1..], e))[1..] == Enqueue(queue[1..], e);
    }
  }

  ghost predicate CancelsKnown(queue: seq<Timed>, placed: map<OrderId, Placement>) {
    forall x :: x in queue && x.payload.CancelArrival? ==> x.payload.id in placed
  }

  lemma {:induction false} ScriptGrown(queue: seq<Timed>, side: Side, placed: map<OrderId, Placement>, p: Placement)
    requires CancelsKnown(queue, placed) && p.id !in placed
    ensures Script(queue, side, placed[p.id := p]) == Script(queue, side, placed)
  {
    if queue != [] {
      assert queue[0] in queue;
      assert CancelsKnown(queue[1..], placed);
      ScriptGrown(queue[1..], side, placed, p);
    }
  }

  // ---------- orders of one side ----------

  lemma {:induction false} OnSideConcat(a: seq<Resting>, b: seq<Resting>, side: Side)
    ensures OnSide(a + b, side) == OnSide(a, side) + OnSide(b, side)
  {
    if a == [] {
      assert a + b == b;
    } else {
      assert (a + b)[1..] == a[1..] + b;
      OnSideConcat(a[1..], b, side);
    }
  }

  /** A side with at most one order keeps it or loses it. */
  lemma {:induction false} OnSideEvolved(before: seq<Resting>, after: seq<Resting>, side: Side)
    requires Evolved(before, after) && |OnSide(before, side)| <= 1
    ensures OnSide(after, side) == [] || OnSide(after, side) == OnSide(before, side)
  {
    if after != [] {
      if Continues(before[0], after[0]) && Evolved(before[1..], after[1..]) {
        OnSideEvolved(before[1..], after[1..], side);
      } else {
        OnSideEvolved(before[1..], after, side);
      }
    }
  }

  lemma {:induction false} OnSideWithout(orders: seq<Resting>, side: Side, id: OrderId)
    requires OnSide(orders, side) == [id]
    ensures OnSide(Without(orders, id), side) == []
  {
    if orders[0].side == side {
      assert OnSide(orders, side)[0] == orders[0].id && OnSide(orders, side)[1..] == OnSide(orders[1..], side);
      OnSideEmptyWithout(orders[1..], side, id);
    } else {
      OnSideWithout(orders[1..], side, id);
    }
  }

  lemma {:induction false} OnSideEmptyWithout(orders: seq<Resting>, side: Side, id: OrderId)
    requires OnSide(orders, side) == []
    ensures OnSide(Without(orders, id), side) == []
  {
    if orders != [] { OnSideEmptyWithout(orders[1..], side, id); }
  }

  // ---------- the invariant ----------

  function QuoteOn<I>(state: QuoteState<I>, side: Side): Quote {
    if side.Bid? then state.bid else state.ask
  }

  /** An order of this side was placed and no cancel was asked for it. */
  ghost predicate Wanted(h: History, id: OrderId, side: Side) {
    id in h.placed && h.placed[id].side == side && id !in h.cancelRequested
  }

  ghost predicate SideTracked(d: Desk, current: Option<OrderId>, side: Side) {
    && Alternates(OnSide(d.core.book.orders, side), Script(d.queue, side, d.history.placed), current)
    && (current.Some? ==> Wanted(d.history, current.value, side))
    && (forall id: OrderId :: Wanted(d.history, id, side) ==> current == Some(id))
  }

  ghost predicate DeskTracked(d: Desk, delay: nat) {
    && Sorted(d.queue) && ArrivalsBy(d.queue, d.now + delay) && CancelsKnown(d.queue, d.history.placed)
    && d.history.cancelRequested <= d.history.placed.Keys && Consistent(d)
  }

  ghost predicate Tracked<I>(sim: B.Sim<QuoteState<I>>, delay: nat) {
    && Timely(sim) && DeskTracked(sim.desk, delay)
    && SideTracked(sim.desk, sim.state.bid.oid, Bid) && SideTracked(sim.desk, sim.state.ask.oid, Ask)
  }

  // ---------- delivering an event ----------

  lemma MarketOnSide(category: FeeCategory, core: Core, h: History, event: MarketEvent, side: Side)
    requires Sound(core, h) && |OnSide(core.book.orders, side)| <= 1
    ensures var after := ApplyMarket(category, core, event).book.orders;
            OnSide(after, side) == [] || OnSide(after, side) == OnSide(core.book.orders, side)
  {
    match event
    case BookSnapshot(_, _, _) =>
    case PriceChange(_, changes) => ChangesKeepWf(core.book, changes);
    case LastTrade(ts, price, size, aggressor) =>
      TradeEvolves(core.book, price, size, aggressor, ts);
      OnSideEvolved(core.book.orders, ApplyTrade(core.book, price, size, aggressor, ts).orders, side);
    case TickSizeChange(_, _) =>
  }

  lemma PlaceOnSide(category: FeeCategory, core: Core, p: Placement, now: Millis, side: Side)
    ensures var after := ApplyPlace(category, core, p, now).book.orders;
            OnSide(after, side) == OnSide(core.book.orders, side)
            || (p.side == side && OnSide(after, side) == OnSide(core.book.orders, side) + [p.id])
  {
    var after := ApplyPlace(category, core, p, now).book.orders;
    if after != core.book.orders {
      var added := after[|core.book.orders|..];
      assert after == core.book.orders + added && added[1..] == [];
      OnSideConcat(core.book.orders, added, side);
    }
  }

  lemma DeliveredOnSide(category: FeeCategory, d: Desk, current: Option<OrderId>, side: Side)
    requires Consistent(d) && d.queue != []
    requires Alternates(OnSide(d.core.book.orders, side), Script(d.queue, side, d.history.placed), current)
    ensures var after := DeliverHead(category, d);
            Alternates(OnSide(after.core.book.orders, side), Script(after.queue, side, after.history.placed), current)
  {
    hide Alternates, OnSide, Script, ApplyMarket, ApplyPlace, Consistent;
    match d.queue[0].payload
    case Market(event) => MarketKeepsAlternates(category, d, current, side, event);
    case PlaceArrival(p) => PlacedOnSide(category, d, current, side, p);
    case CancelArrival(id) => CancelOnSide(d, current, side, id);
  }

  lemma MarketKeepsAlternates(category: FeeCategory, d: Desk, current: Option<OrderId>, side: Side, event: MarketEvent)
    requires Consistent(d) && d.queue != [] && d.queue[0].payload == Market(event)
    requires Alternates(OnSide(d.core.book.orders, side), Script(d.queue, side, d.history.placed), current)
    ensures Alternates(OnSide(ApplyMarket(category, d.core, event).book.orders, side),
                       Script(d.queue[1..], side, d.history.placed), current)
  {
    AlternatesWithoutLive(OnSide(d.core.book.orders, side), Script(d.queue, side, d.history.placed), current);
    MarketOnSide(category, d.core, d.history, event, side);
    ScriptTail(d.queue, side, d.history.placed);
  }

  lemma ScriptTail(queue: seq<Timed>, side: Side, placed: map<OrderId, Placement>)
    requires queue != []
    ensures var entry, script, rest := EntryOf(queue[0], side, placed), Script(queue, side, placed),
                Script(queue[1..], side, placed);
            && |entry| <= 1
            && (entry == [] ==> script == rest)
            && (entry != [] ==> script != [] && script[0] == entry[0] && script[1..] == rest)
  {
  }

  lemma PlacedOnSide(category: FeeCategory, d: Desk, current: Option<OrderId>, side: Side, p: Placement)
    requires d.queue != [] && d.queue[0].payload == PlaceArrival(p)
    requires Alternates(OnSide(d.core.book.orders, side), Script(d.queue, side, d.history.placed), current)
    ensures Alternates(OnSide(ApplyPlace(category, d.core, p, d.queue[0].ts).book.orders, side),
                       Script(d.queue[1..], side, d.history.placed), current)
  {
    PlaceOnSide(category, d.core, p, d.queue[0].ts, side);
    ScriptTail(d.queue, side, d.history.placed);
    if p.side == side {
      AlternatesWithoutLive([p.id], Script(d.queue[1..], side, d.history.placed), current);
    }
  }

  lemma CancelOnSide(d: Desk, current: Option<OrderId>, side: Side, id: OrderId)
    requires Consistent(d) && d.queue != [] && d.queue[0].payload == CancelArrival(id)
    requires Alternates(OnSide(d.core.book.orders, side), Script(d.queue, side, d.history.placed), current)
    ensures Alternates(OnSide(RemoveOrder(d.core.book, id).orders, side), Script(d.queue[1..], side, d.history.placed),
                       current)
  {
    var e, placed, live := d.queue[0], d.history.placed, OnSide(d.core.book.orders, side);
    var rest, later := Script(d.queue[1..], side, placed), OnSide(RemoveOrder(d.core.book, id).orders, side);
    AlternatesWithoutLive(live, Script(d.queue, side, placed), current);
    RemoveEvolves(d.core.book, id);
    OnSideEvolved(d.core.book.orders, RemoveOrder(d.core.book, id).orders, side);
    if id in placed && placed[id].side == side {
      assert Script(d.queue, side, placed)[1..] == rest;
      if live == [id] {
        OnSideWithout(d.core.book.orders, side, id);
      }
    } else {
      assert EntryOf(e, side, placed) + rest == rest;
      AlternatesWithoutLive(live, rest, current);
    }
  }

  lemma DeliverKeepsTracked(category: FeeCategory, d: Desk, current: Option<OrderId>, side: Side)
    requires Consistent(d) && d.queue != [] && SideTracked(d, current, side)
    ensures SideTracked(DeliverHead(category, d), current, side)
  {
    hide Alternates, OnSide, Script, Apply, Consistent;
    DeliveredOnSide(category, d, current, side);
  }

  lemma DeliverKeepsDeskTracked(category: FeeCategory, d: Desk, delay: nat)
    requires DeskTracked(d, delay) && d.queue != [] && NotBefore(d.queue, d.now)
    ensures DeskTracked(DeliverHead(category, d), delay)
  {
    DeliverHeadKeeps(category, d);
    assert forall x :: x in d.queue[1..] ==> x in d.queue;
    assert d.now <= d.queue[0].ts;
  }

  lemma RefillKeepsTracked<S>(sim: B.Sim<S>, current: Option<OrderId>, side: Side, delay: nat)
    requires DeskTracked(sim.desk, delay) && SideTracked(sim.desk, current, side)
    ensures DeskTracked(B.Refilled(sim).desk, delay) && SideTracked(B.Refilled(sim).desk, current, side)
  {
    if sim.tape != [] {
      var e := OnTape(sim.tape[0]);
      RefillKeeps(sim);
      EnqueueSorted(sim.desk.queue, e);
      EnqueuedMembers(sim.desk.queue, e);
      ScriptMarket(sim.desk.queue, e, side, sim.desk.history.placed);
    }
  }

  // ---------- submitting an action ----------

  lemma ArrivalsByEnqueue(queue: seq<Timed>, e: Timed, t: Millis)
    requires ArrivalsBy(queue, t) && (e.payload.Market? || e.ts <= t)
    ensures ArrivalsBy(Enqueue(queue, e), t)
  {
    EnqueuedMembers(queue, e);
  }

  lemma PerformKeepsDeskTracked(latency: Latency, d: Desk, a: Action, delay: nat)
    requires DeskTracked(d, delay) && Constant(latency, delay) && Acceptable(a)
    requires a.CancelOrder? ==> a.id in d.history.placed
    ensures DeskTracked(Perform(latency, d, a), delay)
  {
    var e := ActionEvent(latency, d, a);
    assert Perform(latency, d, a).queue == Enqueue(d.queue, e);
    PerformKeepsConsistent(latency, d, a);
    EnqueueSorted(d.queue, e);
    ArrivalsByEnqueue(d.queue, e, d.now + delay);
    EnqueuedMembers(d.queue, e);
  }

  /** Asking to cancel the current quote: the side has no quote that is not being cancelled. */
  lemma CancelCurrent(latency: Latency, d: Desk, id: OrderId, side: Side, delay: nat)
    requires DeskTracked(d, delay) && Constant(latency, delay) && SideTracked(d, Some(id), side)
    ensures SideTracked(Perform(latency, d, CancelOrder(id)), None, side)
  {
    var after := Perform(latency, d, CancelOrder(id));
    ScriptLast(d.queue, Timed(latency(d.draws, d.now), CancelArrival(id)), side, d.history.placed);
    AlternatesCancel(OnSide(d.core.book.orders, side), Script(d.queue, side, d.history.placed), id);
  }

  lemma PlaceCurrent(latency: Latency, d: Desk, side: Side, price: real, size: OrderSize, delay: nat)
    requires DeskTracked(d, delay) && Constant(latency, delay) && SideTracked(d, None, side)
    ensures SideTracked(Perform(latency, d, PlaceOrder(side, price, size, true)), Some(d.nextId), side)
  {
    var p := Placement(d.nextId, side, price, size, true);
    var after := Perform(latency, d, PlaceOrder(side, price, size, true));
    FreshIdUnused(d);
    ScriptLast(d.queue, Timed(latency(d.draws, d.now), PlaceArrival(p)), side, after.history.placed);
    ScriptGrown(d.queue, side, d.history.placed, p);
    AlternatesPlace(OnSide(d.core.book.orders, side), Script(d.queue, side, d.history.placed), p.id);
  }

  /** What is done for one side does not concern the other. */
  lemma OtherSide(latency: Latency, d: Desk, a: Action, current: Option<OrderId>, side: Side, delay: nat)
    requires DeskTracked(d, delay) && Constant(latency, delay) && SideTracked(d, current, side) && Acceptable(a)
    requires match a case PlaceOrder(other, _, _, _) => other != side
                     case CancelOrder(id) => id in d.history.placed && d.history.placed[id].side != side
    ensures SideTracked(Perform(latency, d, a), current, side)
  {
    var after := Perform(latency, d, a);
    match a
    case PlaceOrder(other, price, size, postOnly) =>
      var p := Placement(d.nextId, other, price, size, postOnly);
      FreshIdUnused(d);
      ScriptLast(d.queue, Timed(latency(d.draws, d.now), PlaceArrival(p)), side, after.history.placed);
      ScriptGrown(d.queue, side, d.history.placed, p);
      assert Script(d.queue, side, after.history.placed) + [] == Script(d.queue, side, after.history.placed);
    case CancelOrder(id) =>
      ScriptLast(d.queue, Timed(latency(d.draws, d.now), CancelArrival(id)), side, d.history.placed);
      assert Script(d.queue, side, d.history.placed) + [] == Script(d.queue, side, d.history.placed);
  }

  // ---------- reconciling ----------

  function Other(side: Side): Side {
    if side.Bid? then Ask else Bid
  }

  lemma {:induction false} PerformAllConcat(latency: Latency, d: Desk, first: seq<Action>, second: seq<Action>)
    requires forall i :: 0 <= i < |first| ==> Acceptable(first[i])
    requires forall i :: 0 <= i < |second| ==> Acceptable(second[i])
    ensures PerformAll(latency, d, first + second) == PerformAll(latency, PerformAll(latency, d, first), second)
  {
    hide Perform;
    if second == [] {
      assert first + second == first;
    } else {
      assert (first + second)[..|first + second| - 1] == first + second[..|second| - 1];
      PerformAllConcat(latency, d, first, second[..|second| - 1]);
    }
  }

  lemma PerformOne(latency: Latency, d: Desk, a: Action)
    requires Acceptable(a)
    ensures PerformAll(latency, d, [a]) == Perform(latency, d, a)
  {
    assert [a][..0] == [];
  }

  /** Both sides of a desk whose quotes on one side are `current` and on the other `other`. */
  ghost predicate BothTracked(d: Desk, side: Side, current: Option<OrderId>, other: Option<OrderId>, delay: nat) {
    DeskTracked(d, delay) && SideTracked(d, current, side) && SideTracked(d, other, Other(side))
  }

  lemma CancelKeepsBoth(latency: Latency, d: Desk, side: Side, id: OrderId, other: Option<OrderId>, delay: nat)
    requires BothTracked(d, side, Some(id), other, delay) && Constant(latency, delay)
    ensures BothTracked(Perform(latency, d, CancelOrder(id)), side, None, other, delay)
  {
    CancelCurrent(latency, d, id, side, delay);
    OtherSide(latency, d, CancelOrder(id), other, Other(side), delay);
    PerformKeepsDeskTracked(latency, d, CancelOrder(id), delay);
  }

  lemma PlaceKeepsBoth(latency: Latency, d: Desk, side: Side, price: real, size: OrderSize, other: Option<OrderId>,
                       delay: nat)
    requires BothTracked(d, side, None, other, delay) && Constant(latency, delay)
    ensures BothTracked(Perform(latency, d, PlaceOrder(side, price, size, true)), side, Some(d.nextId), other, delay)
  {
    PlaceCurrent(latency, d, side, price, size, delay);
    OtherSide(latency, d, PlaceOrder(side, price, size, true), other, Other(side), delay);
    PerformKeepsDeskTracked(latency, d, PlaceOrder(side, price, size, true), delay);
  }

  /** Reconciling one side leaves exactly the quote the strategy remembers. */
  lemma ReconcileKeepsBoth(latency: Latency, d: Desk, side: Side, q: Quote, target: Option<real>, size: OrderSize,
                           tick: Tick,
                           other: Option<OrderId>, delay: nat)
    requires BothTracked(d, side, q.oid, other, delay) && Constant(latency, delay)
    ensures var after := PerformAll(latency, d, ReconcileActions(q, side, target, size, tick));
            && BothTracked(after, side, Reconciled(q, target, tick, d.nextId).oid, other, delay)
            && after.nextId == (if MustPlace(q, target, tick) then d.nextId + 1 else d.nextId)
  {
    hide Perform, PerformAll, BothTracked, Constant;
    PerformNothing(latency, d);
    var first := if MustCancel(q, target, tick) then [CancelOrder(q.oid.value)] else [];
    var second := if MustPlace(q, target, tick) then [PlaceOrder(side, target.value, size, true)] else [];
    var between := PerformAll(latency, d, first);
    PerformAllConcat(latency, d, first, second);
    if MustCancel(q, target, tick) {
      PerformOne(latency, d, CancelOrder(q.oid.value));
      CancelKeepsBoth(latency, d, side, q.oid.value, other, delay);
    }
    KeepsNextId(latency, d, first);
    PerformNothing(latency, between);
    if MustPlace(q, target, tick) {
      PerformOne(latency, between, PlaceOrder(side, target.value, size, true));
      PlaceKeepsBoth(latency, between, side, target.value, size, other, delay);
    }
    KeepsNextId(latency, between, second);
  }

  lemma KeepsNextId(latency: Latency, d: Desk, actions: seq<Action>)
    requires |actions| <= 1 && forall i :: 0 <= i < |actions| ==> Acceptable(actions[i])
    ensures PerformAll(latency, d, actions).nextId
            == if actions != [] && actions[0].PlaceOrder? then d.nextId + 1 else d.nextId
  {
    if actions != [] {
      assert actions == [actions[0]];
      PerformOne(latency, d, actions[0]);
    }
  }

  // ---------- steps and runs ----------

  lemma AppliedTracked<I>(setup: B.Setup<QuoteState<I>>, sim: B.Sim<QuoteState<I>>, delay: nat)
    requires Tracked(sim, delay) && sim.desk.queue != []
    ensures BothTracked(B.Applied(setup, sim).desk, Bid, sim.state.bid.oid, sim.state.ask.oid, delay)
    ensures B.Applied(setup, sim).desk.nextId == sim.desk.nextId
  {
    hide SideTracked, DeskTracked;
    var delivered := sim.(desk := DeliverHead(setup.category, sim.desk));
    assert DeskTracked(DeliverHead(setup.category, sim.desk), delay) by {
      DeliverKeepsDeskTracked(setup.category, sim.desk, delay);
    }
    ConsistentIfTracked(sim.desk, delay);
    DeliverKeepsTracked(setup.category, sim.desk, sim.state.bid.oid, Bid);
    DeliverKeepsTracked(setup.category, sim.desk, sim.state.ask.oid, Ask);
    RefillKeepsTracked(delivered, sim.state.bid.oid, Bid, delay);
    RefillKeepsTracked(delivered, sim.state.ask.oid, Ask, delay);
  }

  lemma ConsistentIfTracked(d: Desk, delay: nat)
    requires DeskTracked(d, delay)
    ensures Consistent(d)
  {
  }

  lemma CallKeepsBoth(d: Desk, call: Call, side: Side, current: Option<OrderId>, other: Option<OrderId>, delay: nat)
    requires BothTracked(d, side, current, other, delay)
    ensures BothTracked(d.(history := d.history.(calls := d.history.calls + [call])), side, current, other, delay)
  {
  }

  /** A requote: bid first, then ask. */
  lemma RequoteKeepsBoth<I>(latency: Latency, d: Desk, quoter: Quoter<I>, state: QuoteState<I>, e: Timed, delay: nat)
    requires BothTracked(d, Bid, state.bid.oid, state.ask.oid, delay) && Constant(latency, delay)
    ensures var reply := OnEvent(quoter, state, ViewOf(d), e);
            && (forall i :: 0 <= i < |reply.actions| ==> Acceptable(reply.actions[i]))
            && BothTracked(PerformAll(latency, d, reply.actions), Bid, reply.state.bid.oid, reply.state.ask.oid, delay)
  {
    hide PerformAll, SideTracked, DeskTracked;
    var reply := OnEvent(quoter, state, ViewOf(d), e);
    if Requotes(quoter, e) {
      var (bid, ask) := TargetsFor(quoter, state, ViewOf(d), e);
      var tick := d.core.book.tick;
      var first := ReconcileActions(state.bid, Bid, bid, quoter.size, tick);
      var second := ReconcileActions(state.ask, Ask, ask, quoter.size, tick);
      var between := PerformAll(latency, d, first);
      PerformAllConcat(latency, d, first, second);
      ReconcileKeepsBoth(latency, d, Bid, state.bid, bid, quoter.size, tick, state.ask.oid, delay);
      ReconcileKeepsBoth(latency, between, Ask, state.ask, ask, quoter.size, tick,
                         Reconciled(state.bid, bid, tick, d.nextId).oid, delay);
    } else {
      PerformNothing(latency, d);
    }
  }

  lemma PerformNothing(latency: Latency, d: Desk)
    ensures PerformAll(latency, d, []) == d
  {
  }

  lemma StepKeepsTracked<I>(setup: B.Setup<QuoteState<I>>, quoter: Quoter<I>, sim: B.Sim<QuoteState<I>>, delay: nat)
    requires Tracked(sim, delay) && Constant(setup.latency, delay) && setup.strategy == AsStrategy(quoter)
    ensures Tracked(B.Step(setup, sim), delay) && B.Step(setup, sim).raised == sim.raised
  {
    hide PerformAll, OnEvent, SideTracked, DeskTracked, Timely;
    StepTimely(setup, sim);
    if !B.Done(sim) {
      var e, d := sim.desk.queue[0], B.Applied(setup, sim).desk;
      AppliedTracked(setup, sim, delay);
      RequoteKeepsBoth(setup.latency, d, quoter, sim.state, e, delay);
      var reply := OnEvent(quoter, sim.state, ViewOf(d), e);
      QuoterIsWellBehaved(quoter, sim.state, ViewOf(d), e);
      CallKeepsBoth(PerformAll(setup.latency, d, reply.actions), Call(e, B.HeadNumber(sim), ViewOf(d), reply.actions),
                    Bid,
                    reply.state.bid.oid, reply.state.ask.oid, delay);
    }
  }

  lemma StartTracked<I>(book: Book, tape: seq<MarketEvent>, inner: I, delay: nat)
    requires Wf(book) && book.orders == [] && SortedTape(tape)
    ensures Tracked(B.Start(book, tape, Initial(inner)), delay) && !B.Start(book, tape, Initial(inner)).raised
  {
    var unprimed := B.Unprimed(book, tape, Initial(inner));
    RefillKeepsTracked(unprimed, None, Bid, delay);
    RefillKeepsTracked(unprimed, None, Ask, delay);
    RefilledTimely(unprimed);
  }

  lemma {:induction false} RunTracked<I>(setup: B.Setup<QuoteState<I>>, quoter: Quoter<I>, book: Book,
                                         tape: seq<MarketEvent>,
                                         inner: I, delay: nat, n: nat)
    requires Wf(book) && book.orders == [] && SortedTape(tape)
    requires Constant(setup.latency, delay) && setup.strategy == AsStrategy(quoter)
    ensures Tracked(B.After(setup, B.Start(book, tape, Initial(inner)), n), delay)
    ensures !B.After(setup, B.Start(book, tape, Initial(inner)), n).raised
  {
    hide B.Step, B.Start, Tracked;
    if n == 0 {
      StartTracked(book, tape, inner, delay);
    } else {
      RunTracked(setup, quoter, book, tape, inner, delay, n - 1);
      StepKeepsTracked(setup, quoter, B.After(setup, B.Start(book, tape, Initial(inner)), n - 1), delay);
    }
  }

  /**
   In every state of a backtest of a quoting strategy with constant latency, each side has at most
   one order of ours in the book, and the order for which no cancel has been asked, if any, is exactly
   the one the strategy takes for its current quote.
   */
  lemma AtMostOneQuotePerSide<I>(setup: B.Setup<QuoteState<I>>, quoter: Quoter<I>, book: Book, tape: seq<MarketEvent>,
                                 inner: I, delay: nat, n: nat, side: Side)
    requires Wf(book) && book.orders == [] && SortedTape(tape)
    requires Constant(setup.latency, delay) && setup.strategy == AsStrategy(quoter)
    ensures var sim := B.After(setup, B.Start(book, tape, Initial(inner)), n);
            && |OnSide(sim.desk.core.book.orders, side)| <= 1
            && (forall id: OrderId :: Wanted(sim.desk.history, id, side) <==> QuoteOn(sim.state, side).oid == Some(id))
            && (forall i, j :: 0 <= i < j < |sim.desk.core.book.orders| ==>
                  !(sim.desk.core.book.orders[i].side == side && sim.desk.core.book.orders[j].side == side))
  {
    hide B.Step, B.Start, B.After;
    var sim := B.After(setup, B.Start(book, tape, Initial(inner)), n);
    RunTracked(setup, quoter, book, tape, inner, delay, n);
    AlternatesWithoutLive(OnSide(sim.desk.core.book.orders, side),
                          Script(sim.desk.queue, side, sim.desk.history.placed),
                          QuoteOn(sim.state, side).oid);
    forall i, j | 0 <= i < j < |sim.desk.core.book.orders|
      ensures !(sim.desk.core.book.orders[i].side == side && sim.desk.core.book.orders[j].side == side)
    {
      var orders := sim.desk.core.book.orders;
      if orders[i].side == side && orders[j].side == side { OnSideCounts(orders, side, i, j); }
    }
  }

  lemma {:induction false} OnSideCounts(orders: seq<Resting>, side: Side, i: nat, j: nat)
    requires i < j < |orders| && orders[i].side == side && orders[j].side == side
    ensures |OnSide(orders, side)| >= 2
  {
    if i > 0 {
      OnSideCounts(orders[1..], side, i - 1, j - 1);
    } else {
      OnSideHas(orders[1..], side, j - 1);
    }
  }

  lemma {:induction false} OnSideHas(orders: seq<Resting>, side: Side, j: nat)
    requires j < |orders| && orders[j].side == side
    ensures |OnSide(orders, side)| >= 1
  {
    if j > 0 { OnSideHas(orders[1..], side, j - 1); }
  }
}
