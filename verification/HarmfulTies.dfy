/**
 What a harmful pair of events does to the engines. On any tape with one, a strategy that acts on
 market events only and reads no numbers is brought into different states: it places an order whose
 arrival ties with an event the backtester has already off the tape, and looks for it at that event.
 */
module HarmfulTies {
  import opened Prelude
  import opened OrderBook
  import opened BookInvariant
  import opened Fees
  import opened TradingDesk
  import opened DeskInvariant
  import opened EventOrder
  import opened KillSwitches
  import opened Quoting
  import opened EngineEquivalence
  import opened ConstantDelay
  import opened TradeSplitting
  import B = Backtest
  import P = Paper

  // ---------- the strategy ----------

  /** Cancels to send at the first event, the events at which to place the order and to look for it, its price. */
  datatype Plan = Plan(dummies: nat, place: nat, look: nat, price: real)

  /** Market events seen, and whether an order of ours rested when it was time to look. */
  datatype Seen = Seen(count: nat, rested: bool)

  function Bet(plan: Plan): Placement {
    Placement(1, Bid, plan.price, 1.0, true)
  }

  function PlannedActions(plan: Plan, count: nat): (r: seq<Action>)
    ensures forall i :: 0 <= i < |r| ==> Acceptable(r[i])
  {
    if count == plan.place then [PlaceOrder(Bid, plan.price, 1.0, true)]
    else if count == 0 then seq(plan.dummies, i => CancelOrder(0))
    else []
  }

  function Probe(plan: Plan, s: Seen, view: View, e: Timed): Reply<Seen> {
    if !e.payload.Market? then Reply(s, [])
    else Reply(Seen(s.count + 1, if s.count == plan.look then view.book.orders != [] else s.rested),
               PlannedActions(plan, s.count))
  }

  function ProbeSetup(plan: Plan, delay: nat): B.Setup<Seen> {
    B.Setup(Geopolitics, (n: nat, now: Millis) => now + delay,
            Strategy((s: Seen, v: View, e: Timed, n: nat) => Probe(plan, s, v, e)))
  }

  lemma ProbeActsOnMarketOnly(plan: Plan, delay: nat)
    ensures ActsOnMarketOnly(ProbeSetup(plan, delay).strategy) && IgnoresNumbers(ProbeSetup(plan, delay).strategy)
    ensures Constant(ProbeSetup(plan, delay).latency, delay)
  {
    var strategy := ProbeSetup(plan, delay).strategy;
    forall s: Seen, v: View, e: Timed, n: nat
      ensures !Raises(strategy.onEvent(s, v, e, n).actions)
      ensures !e.payload.Market? ==> strategy.onEvent(s, v, e, n) == Reply(s, [])
    {
      AllowedAll(strategy.onEvent(s, v, e, n).actions);
    }
  }

  // ---------- where the order is ----------

  datatype Stage = Waiting | UnderWay | Rested

  /** Nothing traded, and our one order not yet sent, sent, or at rest. */
  ghost predicate At(core: Core, plan: Plan, stage: Stage) {
    && core.account.cash == 0.0 && core.account.inventory == 0.0
    && match stage
       case Waiting => core.book.orders == [] && core.pending == map[]
       case UnderWay => core.book.orders == [] && core.pending == map[1 := Bet(plan)]
       case Rested => |core.book.orders| == 1 && core.pending == map[] && core.book.orders[0].id == 1
                      && core.book.orders[0].side == Bid && core.book.orders[0].price == plan.price
  }

  /** No trade on the tape goes as low as the order. */
  ghost predicate OutOfReach(tape: seq<MarketEvent>, price: real) {
    forall i :: 0 <= i < |tape| && tape[i].LastTrade? ==> price < tape[i].price
  }

  lemma {:induction false} LowPrice(tape: seq<MarketEvent>) returns (price: real)
    ensures OutOfReach(tape, price)
  {
    if tape == [] {
      price := 0.0;
    } else {
      var init, last := tape[..|tape| - 1], tape[|tape| - 1];
      var low := LowPrice(init);
      price := if last.LastTrade? then Min(low, last.price - 1.0) else low;
      assert forall i :: 0 <= i < |init| ==> tape[i] == init[i];
    }
  }

  lemma MarketKeepsStage(core: Core, event: MarketEvent, plan: Plan, stage: Stage)
    requires At(core, plan, stage) && (event.LastTrade? ==> plan.price < event.price)
    ensures At(ApplyMarket(Geopolitics, core, event), plan, stage)
  {
    match event
    case BookSnapshot(_, _, _) =>
    case PriceChange(_, changes) => ChangesKeepBook(core.book, changes);
    case LastTrade(ts, price, size, side) =>
      NoneReached(core.book.orders, PrintOf(core.book, price, side, ts), size, map[]);
    case TickSizeChange(_, _) =>
  }

  lemma {:induction false} ChangesKeepBook(book: Book, changes: seq<PriceLevelChange>)
    ensures ApplyChanges(book, changes).orders == book.orders
  {
    if changes != [] { ChangesKeepBook(book, changes[..|changes| - 1]); }
  }

  /** An arrival of the plan: a cancel of nothing, or the order. */
  ghost predicate Planned(x: Timed, plan: Plan, due: Millis, stage: Stage) {
    x.payload == CancelArrival(0) || (!stage.Waiting? && x == Timed(due, PlaceArrival(Bet(plan))))
  }

  function NextStage(x: Timed, stage: Stage): Stage {
    if x.payload.PlaceArrival? && stage.UnderWay? then Rested else stage
  }

  lemma ArrivalMovesStage(core: Core, x: Timed, plan: Plan, due: Millis, stage: Stage, late: Millis)
    requires At(core, plan, stage) && Planned(x, plan, due, stage)
    ensures At(Apply(Geopolitics, core, x.(ts := late)), plan, NextStage(x, stage))
  {
    if x.payload.CancelArrival? {
      if stage.Rested? {
        assert core.book.orders == [core.book.orders[0]] && core.book.orders[1..] == [];
        assert Without(core.book.orders, 0) == core.book.orders;
      }
      assert core.pending - {0} == core.pending;
    } else if stage.UnderWay? {
      assert core.pending - {1} == map[];
    }
  }

  // ---------- what a callback sends ----------

  ghost predicate Lined(queue: seq<Timed>) {
    Sorted(queue) && Stamped(queue)
  }

  lemma EnqueueLined(queue: seq<Timed>, e: Timed)
    requires Lined(queue) && !e.payload.Market?
    ensures var after := Enqueue(queue, e);
            && Lined(after) && Markets(after) == Markets(queue) && |Arrivals(after)| == |Arrivals(queue)| + 1
            && (forall x :: x in after <==> x in queue || x == e)
            && (ArrivalsFirst(queue) && (forall i :: 0 <= i < |Markets(queue)| ==> Markets(queue)[i].ts != e.ts) ==>
                  ArrivalsFirst(after))
  {
    hide ArrivalsFirst, Markets, Arrivals, Enqueue;
    EnqueueSorted(queue, e);
    EnqueuedMembers(queue, e);
    MarketsEnqueueArrival(queue, e);
    ArrivalsEnqueue(queue, e);
    EnqueuedMembers(Arrivals(queue), e);
    if ArrivalsFirst(queue) && (forall i :: 0 <= i < |Markets(queue)| ==> Markets(queue)[i].ts != e.ts) {
      ArrivalsFirstEnqueue(queue, e);
    }
  }

  ghost predicate OnlyAdds(before: seq<Timed>, after: seq<Timed>, e: Timed, n: nat) {
    && Lined(after) && Markets(after) == Markets(before) && |Arrivals(after)| == |Arrivals(before)| + n
    && (forall x :: x in after ==> x in before || (n > 0 && x == e))
    && (forall x :: x in before ==> x in after)
    && (n > 0 ==> e in after)
    && (ArrivalsFirst(before)
        && (n == 0 || forall i :: 0 <= i < |Markets(before)| ==> Markets(before)[i].ts != e.ts) ==>
          ArrivalsFirst(after))
  }

  lemma {:induction false} CancelsSent(latency: Latency, delay: nat, d: Desk, n: nat)
    requires Constant(latency, delay) && Lined(d.queue)
    ensures var after := PerformAll(latency, d, seq(n, i => CancelOrder(0)));
            && after.core == d.core && after.nextId == d.nextId && after.now == d.now
            && OnlyAdds(d.queue, after.queue, Timed(d.now + delay, CancelArrival(0)), n)
  {
    hide ArrivalsFirst, Markets, Arrivals, Enqueue, Lined;
    if n > 0 {
      var actions: seq<Action> := seq(n, i => CancelOrder(0));
      assert actions[..n - 1] == seq(n - 1, i => CancelOrder(0));
      CancelsSent(latency, delay, d, n - 1);
      var before := PerformAll(latency, d, actions[..n - 1]);
      EnqueueLined(before.queue, Timed(before.now + delay, CancelArrival(0)));
    }
  }

  /** The callback on the event that `count` market events came before. */
  lemma ProbeCalled(plan: Plan, delay: nat, d: Desk, s: Seen, e: Timed, n: nat)
    requires e.payload.Market? && Lined(d.queue)
    requires s.count == plan.place ==> d.nextId == 1 && At(d.core, plan, Waiting)
    ensures var (after, s', raised) := Called(ProbeSetup(plan, delay).strategy, ProbeSetup(plan, delay).latency, d, s,
                                              e, n);
            && !raised && s'.count == s.count + 1 && after.now == d.now && after.core.account == d.core.account
            && after.core.book == d.core.book
            && s'.rested == (if s.count == plan.look then d.core.book.orders != [] else s.rested)
            && (if s.count == plan.place
                then At(after.core, plan, UnderWay)
                     && after.queue == Enqueue(d.queue, Timed(d.now + delay, PlaceArrival(Bet(plan))))
                else after.core == d.core && after.nextId == d.nextId
                     && OnlyAdds(d.queue, after.queue, Timed(d.now + delay, CancelArrival(0)),
                                 if s.count == 0 then plan.dummies else 0))
  {
    hide Markets, Arrivals, Enqueue, Lined;
    ProbeActsOnMarketOnly(plan, delay);
    var actions := PlannedActions(plan, s.count);
    AllowedAll(actions);
    var latency := ProbeSetup(plan, delay).latency;
    if s.count == plan.place {
      assert actions[..0] == [];
      assert PerformAll(latency, d, actions) == Perform(latency, d, actions[0]);
    } else if s.count == 0 {
      CancelsSent(latency, delay, d, plan.dummies);
    }
  }

  // ---------- the paper trader ----------

  function StageOf(core: Core): Stage {
    if core.book.orders != [] then Rested else if core.pending != map[] then UnderWay else Waiting
  }

  function BetArrival(plan: Plan, due: Millis): Timed {
    Timed(due, PlaceArrival(Bet(plan)))
  }

  ghost predicate OnPlan(d: Desk, plan: Plan, due: Millis) {
    && At(d.core, plan, StageOf(d.core)) && Lined(d.queue)
    && (forall x :: x in d.queue ==> Planned(x, plan, due, StageOf(d.core)))
    && (StageOf(d.core).UnderWay? ==> BetArrival(plan, due) in d.queue)
  }

  lemma StageIs(core: Core, plan: Plan, stage: Stage)
    requires At(core, plan, stage)
    ensures StageOf(core) == stage
  {
    if stage.UnderWay? { assert 1 in core.pending; }
  }

  lemma DrainOneOnPlan<S>(t: P.Trader<S>, plan: Plan, due: Millis)
    requires OnPlan(t.desk, plan, due) && t.desk.queue != []
    ensures var after := P.DrainOne(Geopolitics, t);
            && OnPlan(after.desk, plan, due) && after.desk.queue == t.desk.queue[1..]
            && (StageOf(after.desk.core).Waiting? <==> StageOf(t.desk.core).Waiting?)
            && after.desk.nextId == t.desk.nextId && after.state == t.state && after.switch == t.switch
            && after.desk.now == if t.desk.queue[0].ts > t.desk.now then t.desk.queue[0].ts else t.desk.now
  {
    var x, stage := t.desk.queue[0], StageOf(t.desk.core);
    var late := if x.ts > t.desk.now then x.ts else t.desk.now;
    assert x in t.desk.queue && Planned(x, plan, due, stage);
    var after := P.DrainOne(Geopolitics, t);
    assert after.desk.core == Apply(Geopolitics, t.desk.core, x.(ts := late));
    assert P.Due(t.desk).queue[1..] == t.desk.queue[1..];
    hide Apply, At, P.IdsAfter, Noted;
    ArrivalMovesStage(t.desk.core, x, plan, due, stage, late);
    StageIs(after.desk.core, plan, NextStage(x, stage));
    SortedTail(t.desk.queue);
    StampedTail(t.desk.queue);
    assert t.desk.queue == [x] + t.desk.queue[1..];
    forall y | y in after.desk.queue ensures Planned(y, plan, due, StageOf(after.desk.core)) {
      assert Planned(y, plan, due, stage);
    }
    assert StageOf(after.desk.core) == NextStage(x, stage) && Lined(after.desk.queue);
  }

  lemma {:induction false} DrainedOnPlan<S>(t: P.Trader<S>, plan: Plan, due: Millis, ts: Millis)
    requires OnPlan(t.desk, plan, due) && t.desk.now <= ts
    ensures var after := P.Drained(Geopolitics, t, ts);
            && OnPlan(after.desk, plan, due) && after.desk.now <= ts
            && (forall x :: x in after.desk.queue ==> ts < x.ts)
            && (StageOf(after.desk.core).Waiting? <==> StageOf(t.desk.core).Waiting?)
            && after.desk.nextId == t.desk.nextId && after.state == t.state && after.switch == t.switch
    decreases |t.desk.queue|
  {
    if t.desk.queue == [] {
    } else if t.desk.queue[0].ts > ts {
      forall x | x in t.desk.queue ensures ts < x.ts { HeadNotLater(t.desk.queue, x); }
    } else {
      DrainOneOnPlan(t, plan, due);
      hide OnPlan;
      DrainedOnPlan(P.DrainOne(Geopolitics, t), plan, due, ts);
    }
  }

  /** No profit and no loss so far, and so no reason to halt. */
  ghost predicate Calm(s: Switch) {
    !s.halted && s.peakPnl == 0.0 && s.dailyAnchorPnl == 0.0
  }

  lemma CalmTick(limits: Limits, s: Switch, nowS: real, pnl: real, inventory: real)
    requires limits.Valid() && Calm(s) && pnl == 0.0
    ensures Calm(Ticked(limits, s, nowS, pnl, inventory))
  {
  }

  lemma NoProfit(account: Account)
    requires account.cash == 0.0 && account.inventory == 0.0
    ensures MarkToMid(account) == 0.0
  {
  }

  /** The trader after `k` events of the tape. */
  ghost predicate PaperAt(t: P.Trader<Seen>, plan: Plan, due: Millis, tape: seq<MarketEvent>, k: nat)
    requires k <= |tape|
  {
    && OnPlan(t.desk, plan, due) && Calm(t.switch)
    && (StageOf(t.desk.core).Waiting? <==> k <= plan.place) && (k <= plan.place ==> t.desk.nextId == 1)
    && t.state == Seen(k, k > plan.look)
    && t.desk.now == if k == 0 then 0 else tape[k - 1].ts
  }

  ghost predicate GoodPlan(plan: Plan, tape: seq<MarketEvent>, delay: nat) {
    && plan.place < plan.look < |tape| && tape[plan.look].ts == tape[plan.place].ts + delay
    && OutOfReach(tape, plan.price)
    && (if plan.look == plan.place + 1 then plan.dummies == 0
        else && plan.place >= 1 && plan.dummies == |tape|
             && tape[0].ts + delay <= tape[plan.place].ts && tape[1].ts != tape[0].ts + delay)
  }

  lemma ScheduledOnPlan(before: Desk, after: Desk, plan: Plan, due: Millis, e: Timed, n: nat)
    requires OnPlan(before, plan, due) && after.core == before.core
    requires e.payload == CancelArrival(0) && OnlyAdds(before.queue, after.queue, e, n)
    ensures OnPlan(after, plan, due)
  {
    hide At, Markets, Arrivals, ArrivalsFirst;
  }

  lemma BetOnPlan(before: Desk, after: Desk, plan: Plan, due: Millis)
    requires OnPlan(before, plan, due) && StageOf(before.core).Waiting? && At(after.core, plan, UnderWay)
    requires after.queue == Enqueue(before.queue, BetArrival(plan, due))
    ensures OnPlan(after, plan, due) && StageOf(after.core).UnderWay?
  {
    hide Markets, Arrivals, ArrivalsFirst, Enqueue;
    StageIs(after.core, plan, UnderWay);
    hide At, StageOf;
    EnqueueLined(before.queue, BetArrival(plan, due));
    hide Lined;
    forall x | x in after.queue ensures Planned(x, plan, due, UnderWay) {
      if x in before.queue { assert Planned(x, plan, due, Waiting); }
    }
  }

  lemma MarketOnPlan<S>(t: P.Trader<S>, plan: Plan, due: Millis, event: MarketEvent)
    requires OnPlan(t.desk, plan, due) && t.desk.now <= event.ts && (event.LastTrade? ==> plan.price < event.price)
    ensures var after := P.MarketApplied(Geopolitics, t, event);
            && OnPlan(after.desk, plan, due) && StageOf(after.desk.core) == StageOf(t.desk.core)
            && after.desk.queue == t.desk.queue && after.desk.nextId == t.desk.nextId && after.desk.now == event.ts
            && after.state == t.state && after.switch == t.switch && MarkToMid(after.desk.core.account) == 0.0
  {
    var after, stage := P.MarketApplied(Geopolitics, t, event), StageOf(t.desk.core);
    assert after.desk.core == ApplyMarket(Geopolitics, t.desk.core, event);
    hide ApplyMarket, P.IdsAfter, MarkToMid;
    MarketKeepsStage(t.desk.core, event, plan, stage);
    StageIs(after.desk.core, plan, stage);
    NoProfit(after.desk.core.account);
  }

  function Message(event: MarketEvent): P.Input {
    P.MarketMessage(event, 0.0, 0.0)
  }

  /** The feed delivers the events of the tape, one after the other. */
  function Messages(events: seq<MarketEvent>): seq<P.Input> {
    seq(|events|, i requires 0 <= i < |events| => Message(events[i]))
  }

  lemma {:induction false} EventsOfMessages(events: seq<MarketEvent>)
    ensures EventsOf(Messages(events)) == events
  {
    if events != [] {
      var init := events[..|events| - 1];
      EventsOfMessages(init);
      assert Messages(events)[..|events| - 1] == Messages(init);
    }
  }

  function Due(plan: Plan, tape: seq<MarketEvent>, delay: nat): Millis {
    if plan.place < |tape| then tape[plan.place].ts + delay else 0
  }

  /** The trader once the feed has delivered these events. */
  function Trading(plan: Plan, limits: Limits, delay: nat, book: Book, events: seq<MarketEvent>): P.Trader<Seen>
    requires limits.Valid()
  {
    P.After(Paired(ProbeSetup(plan, delay), limits), P.Fresh(book, Seen(0, false)), Messages(events))
  }

  lemma EventKeepsPaperAt(plan: Plan, limits: Limits, delay: nat, tape: seq<MarketEvent>, t: P.Trader<Seen>, k: nat)
    requires limits.Valid() && GoodPlan(plan, tape, delay) && SortedTape(tape) && k < |tape|
    requires PaperAt(t, plan, Due(plan, tape, delay), tape, k)
    ensures PaperAt(P.EventProcessed(Paired(ProbeSetup(plan, delay), limits), t, tape[k], 0.0), plan,
                    Due(plan, tape, delay), tape, k + 1)
  {
    hide OnPlan, At, Lined, Ticked, P.Drained, Called, P.MarketApplied, StageOf;
    var due, event := Due(plan, tape, delay), tape[k];
    assert k > 0 ==> tape[k - 1].ts <= event.ts;
    DrainedOnPlan(t, plan, due, event.ts);
    var drained := P.Drained(Geopolitics, t, event.ts);
    MarketOnPlan(drained, plan, due, event);
    var applied := P.MarketApplied(Geopolitics, drained, event);
    CalmTick(limits, applied.switch, 0.0, MarkToMid(applied.desk.core.account), applied.desk.core.account.inventory);
    var d := P.SwitchTicked(limits, applied, 0.0).desk;
    if k == plan.look { RestsByThen(drained, plan, due, event.ts); }
    OnPlanParts(d, plan, due);
    ProbeCalled(plan, delay, d, t.state, OnTape(event), drained.seqCounter);
    var after := Called(ProbeSetup(plan, delay).strategy, ProbeSetup(plan, delay).latency, d, t.state, OnTape(event),
                        drained.seqCounter).0;
    if k == plan.place {
      BetOnPlan(d, after, plan, due);
      OnPlanParts(after, plan, due);
    } else {
      ScheduledOnPlan(d, after, plan, due, Timed(d.now + delay, CancelArrival(0)), if k == 0 then plan.dummies else 0);
    }
    RestedMeans(d.core);
  }

  lemma OnPlanParts(d: Desk, plan: Plan, due: Millis)
    requires OnPlan(d, plan, due)
    ensures At(d.core, plan, StageOf(d.core)) && Lined(d.queue)
  {
  }

  lemma RestedMeans(core: Core)
    ensures StageOf(core).Rested? <==> core.book.orders != []
  {
  }

  /** All that was due by the event to look at has been drained, the order included. */
  lemma RestsByThen(t: P.Trader<Seen>, plan: Plan, due: Millis, ts: Millis)
    requires OnPlan(t.desk, plan, due) && !StageOf(t.desk.core).Waiting? && due <= ts
    requires forall x :: x in t.desk.queue ==> ts < x.ts
    ensures StageOf(t.desk.core).Rested?
  {
    assert BetArrival(plan, due).ts == due;
  }

  lemma FreshOnPlan(book: Book, plan: Plan, due: Millis, tape: seq<MarketEvent>)
    requires book.orders == []
    ensures PaperAt(P.Fresh(book, Seen(0, false)), plan, due, tape, 0)
  {
  }

  lemma {:induction false} PaperRun(plan: Plan, limits: Limits, delay: nat, book: Book, tape: seq<MarketEvent>, k: nat)
    requires limits.Valid() && GoodPlan(plan, tape, delay) && SortedTape(tape) && k <= |tape| && book.orders == []
    ensures PaperAt(Trading(plan, limits, delay, book, tape[..k]), plan, Due(plan, tape, delay), tape, k)
  {
    hide PaperAt, Trading, GoodPlan, SortedTape, Due, P.Fresh;
    if k == 0 {
      FirstMessage(plan, limits, delay, book);
      FreshOnPlan(book, plan, Due(plan, tape, delay), tape);
    } else {
      PaperRun(plan, limits, delay, book, tape, k - 1);
      NextMessage(plan, limits, delay, book, tape, k);
      MessageKeepsPaperAt(plan, limits, delay, tape, Trading(plan, limits, delay, book, tape[..k - 1]), k - 1);
    }
  }

  lemma FirstMessage(plan: Plan, limits: Limits, delay: nat, book: Book)
    requires limits.Valid()
    ensures Trading(plan, limits, delay, book, []) == P.Fresh(book, Seen(0, false))
  {
  }

  lemma NextMessage(plan: Plan, limits: Limits, delay: nat, book: Book, tape: seq<MarketEvent>, k: nat)
    requires limits.Valid() && 0 < k <= |tape|
    ensures Trading(plan, limits, delay, book, tape[..k])
            == P.Handle(Paired(ProbeSetup(plan, delay), limits), Trading(plan, limits, delay, book, tape[..k - 1]),
                        Message(tape[k - 1]))
  {
    hide P.Handle, P.Fresh;
    LastMessage(tape, k);
  }

  lemma LastMessage(tape: seq<MarketEvent>, k: nat)
    requires k <= |tape|
    ensures |Messages(tape[..k])| == k
    ensures k > 0 ==> Messages(tape[..k])[..k - 1] == Messages(tape[..k - 1])
                      && Messages(tape[..k])[k - 1] == Message(tape[k - 1])
  {
  }

  lemma MessageKeepsPaperAt(plan: Plan, limits: Limits, delay: nat, tape: seq<MarketEvent>, t: P.Trader<Seen>, k: nat)
    requires limits.Valid() && GoodPlan(plan, tape, delay) && SortedTape(tape) && k < |tape|
    requires PaperAt(t, plan, Due(plan, tape, delay), tape, k)
    ensures PaperAt(P.Handle(Paired(ProbeSetup(plan, delay), limits), t, Message(tape[k])), plan,
                    Due(plan, tape, delay), tape, k + 1)
  {
    hide PaperAt, P.EventProcessed, SortedTape, ProbeSetup;
    NotedPaperAt(t, plan, Due(plan, tape, delay), tape, k);
    EventKeepsPaperAt(plan, limits, delay, tape, t.(switch := MessageNoted(t.switch, 0.0)), k);
  }

  lemma NotedPaperAt(t: P.Trader<Seen>, plan: Plan, due: Millis, tape: seq<MarketEvent>, k: nat)
    requires k <= |tape| && PaperAt(t, plan, due, tape, k)
    ensures PaperAt(t.(switch := MessageNoted(t.switch, 0.0)), plan, due, tape, k)
  {
  }

  // ---------- the order on the backtester's queue ----------

  function MarketOf(e: Timed): seq<MarketEvent> {
    if e.payload.Market? then [e.payload.event] else []
  }

  lemma MarketsFrom(queue: seq<Timed>)
    ensures Markets(queue) == if queue == [] then [] else MarketOf(queue[0]) + Markets(queue[1..])
  {
  }

  lemma {:induction false} MarketsConcat(a: seq<Timed>, b: seq<Timed>)
    ensures Markets(a + b) == Markets(a) + Markets(b)
  {
    hide Markets, MarketOf;
    MarketsFrom(a);
    MarketsFrom(a + b);
    if a == [] {
      assert a + b == b;
    } else {
      assert (a + b)[1..] == a[1..] + b;
      MarketsConcat(a[1..], b);
      assert MarketOf(a[0]) + (Markets(a[1..]) + Markets(b)) == MarketOf(a[0]) + Markets(a[1..]) + Markets(b);
    }
  }

  /** Wherever the order is on the queue, more than `n` market events stand before it. */
  ghost predicate Behind(queue: seq<Timed>, bet: Timed, n: int) {
    forall q :: 0 <= q < |queue| && queue[q] == bet ==> |Markets(queue[..q])| > n
  }

  lemma BehindTail(queue: seq<Timed>, bet: Timed, n: int)
    requires queue != [] && Behind(queue, bet, n)
    ensures Behind(queue[1..], bet, if queue[0].payload.Market? then n - 1 else n)
  {
    forall q | 0 <= q < |queue[1..]| && queue[1..][q] == bet
      ensures |Markets(queue[1..][..q])| > if queue[0].payload.Market? then n - 1 else n
    {
      assert queue[q + 1] == bet && queue[..q + 1][1..] == queue[1..][..q];
    }
  }

  lemma BehindMarket(queue: seq<Timed>, e: Timed, bet: Timed, n: int)
    requires Sorted(queue) && e.payload.Market? && !bet.payload.Market? && Behind(queue, bet, n)
    ensures Behind(Enqueue(queue, e), bet, n)
  {
    hide Markets, Enqueue;
    var k := EnqueueIsStable(queue, e);
    var after := Enqueue(queue, e);
    assert after[k] == e;
    forall q | 0 <= q < |after| && after[q] == bet ensures |Markets(after[..q])| > n {
      if q < k {
        assert queue[q] == bet && after[..q] == queue[..q];
      } else {
        InsertedCounts(queue, e, k, q);
      }
    }
  }

  /** What is put in before position `q` does not take market events away from in front of it. */
  lemma InsertedCounts(queue: seq<Timed>, e: Timed, k: nat, q: nat)
    requires k < q <= |queue|
    ensures var after := queue[..k] + [e] + queue[k..];
            after[q] == queue[q - 1] && |Markets(after[..q])| >= |Markets(queue[..q - 1])|
  {
    hide Markets;
    var after := queue[..k] + [e] + queue[k..];
    var front, mid := queue[..k], queue[k..q - 1];
    assert after[..q] == front + ([e] + mid) && queue[..q - 1] == front + mid;
    MarketsConcat(front, [e] + mid);
    MarketsConcat([e], mid);
    MarketsConcat(front, mid);
  }

  /** An arrival goes in behind every queued market event that is not later. */
  lemma BehindPlaced(queue: seq<Timed>, bet: Timed, rest: seq<MarketEvent>, tape: seq<MarketEvent>, n: nat)
    requires Lined(queue) && !bet.payload.Market? && bet !in queue
    requires Markets(queue) + tape == rest && SortedTape(rest) && n < |Markets(queue)| && rest[n].ts <= bet.ts
    ensures Behind(Enqueue(queue, bet), bet, n)
  {
    hide Markets, Enqueue, Stamped;
    var k := EnqueueIsStable(queue, bet);
    var after := Enqueue(queue, bet);
    assert queue == queue[..k] + queue[k..];
    MarketsConcat(queue[..k], queue[k..]);
    LateMarkets(queue, k, bet.ts);
    var early := |Markets(queue[..k])|;
    assert forall i :: early <= i < |Markets(queue)| ==> rest[i] == Markets(queue[k..])[i - early];
    assert early > n;
    OnlyAt(queue, k, bet);
    assert after[..k] == queue[..k];
  }

  lemma OnlyAt(queue: seq<Timed>, k: nat, bet: Timed)
    requires k <= |queue| && bet !in queue
    ensures var after := queue[..k] + [bet] + queue[k..]; forall q :: 0 <= q < |after| && after[q] == bet ==> q == k
  {
    var after := queue[..k] + [bet] + queue[k..];
    forall q | 0 <= q < |after| && q != k ensures after[q] in queue {
      assert after[q] == queue[if q < k then q else q - 1];
    }
  }

  lemma LateMarkets(queue: seq<Timed>, k: nat, ts: Millis)
    requires Stamped(queue) && k <= |queue| && forall i :: k <= i < |queue| ==> ts < queue[i].ts
    ensures forall i :: 0 <= i < |Markets(queue[k..])| ==> ts < Markets(queue[k..])[i].ts
  {
    var late := queue[k..];
    forall i | 0 <= i < |Markets(late)| ensures ts < Markets(late)[i].ts {
      MarketsMember(late, Markets(late)[i]);
      var x :| x in late && x.payload == Market(Markets(late)[i]);
      var j :| 0 <= j < |late| && late[j] == x;
      assert queue[k + j] == x && x in queue;
    }
  }

  // ---------- the backtester ----------

  /** What has not been handled is queued or on the tape, and nothing has been seen at rest. */
  ghost predicate Tracked(sim: B.Sim<Seen>, tape: seq<MarketEvent>) {
    && sim.state.count <= |tape| && SortedTape(tape) && Timely(sim) && Stamped(sim.desk.queue)
    && !sim.raised && !sim.state.rested
    && Markets(sim.desk.queue) + sim.tape == tape[sim.state.count..]
    && (sim.tape != [] ==> Markets(sim.desk.queue) != [])
  }

  /** Up to the event of the placement: only cancels are under way, and they come first. */
  ghost predicate Early(sim: B.Sim<Seen>, plan: Plan, tape: seq<MarketEvent>)
    requires plan.place < |tape|
  {
    var queue := sim.desk.queue;
    && At(sim.desk.core, plan, Waiting) && sim.desk.nextId == 1 && ArrivalsFirst(queue)
    && (forall x :: x in queue && !x.payload.Market? ==> x.payload == CancelArrival(0) && x.ts <= tape[plan.place].ts)
    && (if sim.state.count == 0 then Arrivals(queue) == [] && |Markets(queue)| <= 1
        else sim.tape == [] || |Markets(queue)| + |Arrivals(queue)| > plan.dummies)
  }

  /** After it, up to the event to look at: the order is behind that event. */
  ghost predicate Coming(sim: B.Sim<Seen>, plan: Plan, due: Millis) {
    && At(sim.desk.core, plan, UnderWay)
    && (forall x :: x in sim.desk.queue && !x.payload.Market? ==> Planned(x, plan, due, UnderWay))
    && Behind(sim.desk.queue, BetArrival(plan, due), plan.look - sim.state.count)
  }

  ghost predicate BackAt(sim: B.Sim<Seen>, plan: Plan, tape: seq<MarketEvent>, due: Millis)
    requires plan.place < |tape|
  {
    && Tracked(sim, tape)
    && (sim.state.count <= plan.place ==> Early(sim, plan, tape))
    && (plan.place < sim.state.count <= plan.look ==> Coming(sim, plan, due))
  }

  /** One step up to its callback: the head is applied and the next event pulled. */
  lemma AppliedFacts(plan: Plan, delay: nat, sim: B.Sim<Seen>, tape: seq<MarketEvent>, bet: Timed, n: int)
    requires Tracked(sim, tape) && sim.desk.queue != [] && !bet.payload.Market?
    ensures var head, c, x := sim.desk.queue[0], sim.state.count, B.Applied(ProbeSetup(plan, delay), sim);
            && Timely(x) && Lined(x.desk.queue) && x.desk.now == head.ts && x.desk.nextId == sim.desk.nextId
            && x.desk.core == Apply(Geopolitics, sim.desk.core, head)
            && (head.payload.Market? ==> c < |tape| && head == OnTape(tape[c]))
            && Markets(x.desk.queue) + x.tape == (if head.payload.Market? then tape[c + 1..] else tape[c..])
            && (x.tape != [] ==> Markets(x.desk.queue) != [])
            && |x.tape| == (if sim.tape == [] then 0 else |sim.tape| - 1)
            && |Arrivals(x.desk.queue)| == |Arrivals(sim.desk.queue)| - (if head.payload.Market? then 0 else 1)
            && (forall y :: y in x.desk.queue && !y.payload.Market? ==> y in sim.desk.queue)
            && (ArrivalsFirst(sim.desk.queue) ==> ArrivalsFirst(x.desk.queue))
            && (Behind(sim.desk.queue, bet, n) ==>
                  Behind(x.desk.queue, bet, if head.payload.Market? then n - 1 else n))
  {
    hide Markets, Arrivals, Enqueue, ArrivalsFirst, Behind, Apply, Noted, Timely;
    var head, rest := sim.desk.queue[0], tape[sim.state.count..];
    TimelyParts(sim);
    HeadIsOneOf(sim.desk.queue);
    SortedTail(sim.desk.queue);
    StampedTail(sim.desk.queue);
    if ArrivalsFirst(sim.desk.queue) { ArrivalsFirstTail(sim.desk.queue); }
    if Behind(sim.desk.queue, bet, n) { BehindTail(sim.desk.queue, bet, n); }
    var popped := sim.(desk := DeliverHead(Geopolitics, sim.desk));
    var left := if head.payload.Market? then rest[1..] else rest;
    assert Markets(popped.desk.queue) + popped.tape == left;
    RefillLinked(popped, left);
    AppliedTimely(ProbeSetup(plan, delay), sim);
    TimelyParts(B.Applied(ProbeSetup(plan, delay), sim));
    if sim.tape != [] {
      EnqueuedMembers(popped.desk.queue, OnTape(sim.tape[0]));
      var m := if head.payload.Market? then n - 1 else n;
      if Behind(popped.desk.queue, bet, m) { BehindMarket(popped.desk.queue, OnTape(sim.tape[0]), bet, m); }
    }
  }

  lemma TimelyParts(sim: B.Sim<Seen>)
    requires Timely(sim)
    ensures Sorted(sim.desk.queue)
  {
  }

  lemma ArrivalStep(plan: Plan, delay: nat, sim: B.Sim<Seen>)
    requires !B.Done(sim) && !sim.desk.queue[0].payload.Market?
    ensures var x, after := B.Applied(ProbeSetup(plan, delay), sim), B.Step(ProbeSetup(plan, delay), sim);
            && after.state == sim.state && !after.raised && after.tape == x.tape
            && after.desk.queue == x.desk.queue && after.desk.core == x.desk.core && after.desk.nextId == x.desk.nextId
  {
    hide B.Step, B.Applied, Called;
    ProbeActsOnMarketOnly(plan, delay);
    StepParts(ProbeSetup(plan, delay), sim);
    QuietCall(ProbeSetup(plan, delay), B.Applied(ProbeSetup(plan, delay), sim).desk, sim.state, sim.desk.queue[0],
              B.HeadNumber(sim));
  }

  lemma ArrivalKeepsBackAt(plan: Plan, delay: nat, sim: B.Sim<Seen>, tape: seq<MarketEvent>)
    requires GoodPlan(plan, tape, delay) && BackAt(sim, plan, tape, Due(plan, tape, delay))
    requires !B.Done(sim) && !sim.desk.queue[0].payload.Market?
    ensures BackAt(B.Step(ProbeSetup(plan, delay), sim), plan, tape, Due(plan, tape, delay))
  {
    hide B.Step, B.Applied, Markets, Arrivals, ArrivalsFirst, At, Apply, Behind, Timely, SortedTape;
    var due, c, head := Due(plan, tape, delay), sim.state.count, sim.desk.queue[0];
    ProbeActsOnMarketOnly(plan, delay);
    AppliedFacts(plan, delay, sim, tape, BetArrival(plan, due), plan.look - c);
    StepTimely(ProbeSetup(plan, delay), sim);
    ArrivalStep(plan, delay, sim);
    assert head in sim.desk.queue;
    if c <= plan.place {
      ArrivalMovesStage(sim.desk.core, head, plan, due, Waiting, head.ts);
    } else if c <= plan.look {
      NotTheBet(sim, plan, due);
      ArrivalMovesStage(sim.desk.core, head, plan, due, UnderWay, head.ts);
    }
  }

  lemma NotTheBet(sim: B.Sim<Seen>, plan: Plan, due: Millis)
    requires Coming(sim, plan, due) && sim.state.count <= plan.look && sim.desk.queue != []
    ensures sim.desk.queue[0] != BetArrival(plan, due)
  {
    assert Markets(sim.desk.queue[..0]) == [];
  }

  lemma MarketStep(plan: Plan, delay: nat, sim: B.Sim<Seen>)
    requires !B.Done(sim) && sim.desk.queue[0].payload.Market?
             && Lined(B.Applied(ProbeSetup(plan, delay), sim).desk.queue)
    requires sim.state.count == plan.place ==>
               var x := B.Applied(ProbeSetup(plan, delay), sim).desk; x.nextId == 1 && At(x.core, plan, Waiting)
    ensures var d, after := B.Applied(ProbeSetup(plan, delay), sim).desk, B.Step(ProbeSetup(plan, delay), sim);
            var s, s' := sim.state, after.state;
            && !after.raised && after.tape == B.Applied(ProbeSetup(plan, delay), sim).tape && s'.count == s.count + 1
            && s'.rested == (if s.count == plan.look then d.core.book.orders != [] else s.rested)
            && (if s.count == plan.place
                then At(after.desk.core, plan, UnderWay)
                     && after.desk.queue == Enqueue(d.queue, Timed(d.now + delay, PlaceArrival(Bet(plan))))
                else after.desk.core == d.core && after.desk.nextId == d.nextId
                     && OnlyAdds(d.queue, after.desk.queue, Timed(d.now + delay, CancelArrival(0)),
                                 if s.count == 0 then plan.dummies else 0))
  {
    hide B.Step, B.Applied, Called, Lined, OnlyAdds, At, Enqueue;
    StepParts(ProbeSetup(plan, delay), sim);
    ProbeCalled(plan, delay, B.Applied(ProbeSetup(plan, delay), sim).desk, sim.state, sim.desk.queue[0],
                B.HeadNumber(sim));
  }

  /** Sending the cancels, or nothing, leaves all arrivals first and early enough. */
  lemma EarlyKept(plan: Plan, delay: nat, tape: seq<MarketEvent>, c: nat, x: B.Sim<Seen>, after: B.Sim<Seen>)
    requires GoodPlan(plan, tape, delay) && c < plan.place && after.state.count == c + 1
    requires At(after.desk.core, plan, Waiting) && after.desk.nextId == 1 && after.tape == x.tape
    requires ArrivalsFirst(x.desk.queue)
    requires forall y :: y in x.desk.queue && !y.payload.Market? ==>
               y.payload == CancelArrival(0) && y.ts <= tape[plan.place].ts
    requires Markets(x.desk.queue) + x.tape == tape[c + 1..] && (x.tape != [] ==> Markets(x.desk.queue) != [])
    requires OnlyAdds(x.desk.queue, after.desk.queue, Timed(tape[c].ts + delay, CancelArrival(0)),
                      if c == 0 then plan.dummies else 0)
    requires if c == 0 then |Markets(x.desk.queue)| <= 1
             else x.tape == [] || |Markets(x.desk.queue)| + |Arrivals(x.desk.queue)| > plan.dummies
    ensures Early(after, plan, tape)
  {
    hide ArrivalsFirst, Markets, Arrivals, Lined, At, OutOfReach;
    if c == 0 {
      assert forall i :: 0 <= i < |Markets(x.desk.queue)| ==> Markets(x.desk.queue)[i] == tape[1..][i];
    }
  }

  lemma TrackedKept(tape: seq<MarketEvent>, c: nat, x: B.Sim<Seen>, after: B.Sim<Seen>)
    requires SortedTape(tape) && c < |tape| && after.state.count == c + 1 && !after.raised && !after.state.rested
    requires Timely(after) && Lined(after.desk.queue) && after.tape == x.tape
    requires Markets(after.desk.queue) == Markets(x.desk.queue)
    requires Markets(x.desk.queue) + x.tape == tape[c + 1..] && (x.tape != [] ==> Markets(x.desk.queue) != [])
    ensures Tracked(after, tape)
  {
  }

  /** The state handed to the callback before the placement. */
  ghost predicate EarlyInside(x: B.Sim<Seen>, plan: Plan, tape: seq<MarketEvent>, c: nat)
    requires plan.place < |tape| && c < |tape|
  {
    var queue := x.desk.queue;
    && Lined(queue) && At(x.desk.core, plan, Waiting) && x.desk.nextId == 1 && x.desk.now == tape[c].ts
    && ArrivalsFirst(queue)
    && (forall y :: y in queue && !y.payload.Market? ==> y.payload == CancelArrival(0) && y.ts <= tape[plan.place].ts)
    && Markets(queue) + x.tape == tape[c + 1..] && (x.tape != [] ==> Markets(queue) != [])
    && (if c == 0 then |Markets(queue)| <= 1 && Arrivals(queue) == []
        else x.tape == [] || |Markets(queue)| + |Arrivals(queue)| > plan.dummies)
  }

  lemma EarlyGoesIn(plan: Plan, delay: nat, sim: B.Sim<Seen>, tape: seq<MarketEvent>)
    requires plan.place < plan.look < |tape| && OutOfReach(tape, plan.price)
    requires Tracked(sim, tape) && Early(sim, plan, tape) && sim.state.count <= plan.place
    requires sim.desk.queue != [] && sim.desk.queue[0].payload.Market?
    ensures EarlyInside(B.Applied(ProbeSetup(plan, delay), sim), plan, tape, sim.state.count)
    ensures sim.state.count == plan.place ==> Arrivals(B.Applied(ProbeSetup(plan, delay), sim).desk.queue) == []
  {
    hide B.Applied, Markets, Arrivals, ArrivalsFirst, At, Apply, Behind, Timely, Lined, ProbeSetup, SortedTape,
         OutOfReach;
    var c := sim.state.count;
    var x := B.Applied(ProbeSetup(plan, delay), sim);
    AppliedFacts(plan, delay, sim, tape, BetArrival(plan, 0), 0);
    EarlyAfterMarket(sim, plan, tape);
    assert |Markets(x.desk.queue)| + |x.tape| == |tape| - c - 1 && |Markets(sim.desk.queue)| + |sim.tape| == |tape| - c;
    if c == plan.place { NoArrivalLeft(sim, plan, tape); }
  }

  /** All arrivals stand before the event of the placement, so none is left when it is popped. */
  lemma NoArrivalLeft(sim: B.Sim<Seen>, plan: Plan, tape: seq<MarketEvent>)
    requires plan.place < |tape| && Early(sim, plan, tape)
    requires sim.desk.queue != [] && sim.desk.queue[0] == OnTape(tape[plan.place])
    ensures Arrivals(sim.desk.queue) == []
  {
    hide At, Markets;
    HeadIsStrictlyFirst(sim.desk.queue);
    if Arrivals(sim.desk.queue) != [] { ArrivalsMember(sim.desk.queue, Arrivals(sim.desk.queue)[0]); }
  }

  lemma EarlyAfterMarket(sim: B.Sim<Seen>, plan: Plan, tape: seq<MarketEvent>)
    requires plan.place < |tape| && OutOfReach(tape, plan.price) && Early(sim, plan, tape) && sim.state.count < |tape|
    ensures At(Apply(Geopolitics, sim.desk.core, OnTape(tape[sim.state.count])), plan, Waiting)
  {
    hide Markets, Arrivals, ArrivalsFirst;
    MarketKeepsStage(sim.desk.core, tape[sim.state.count], plan, Waiting);
  }

  /** Before the placement. */
  lemma EarlyMarket(plan: Plan, delay: nat, sim: B.Sim<Seen>, tape: seq<MarketEvent>)
    requires GoodPlan(plan, tape, delay) && Tracked(sim, tape) && Early(sim, plan, tape) && sim.state.count < plan.place
    requires !B.Done(sim) && sim.desk.queue[0].payload.Market?
    ensures var after := B.Step(ProbeSetup(plan, delay), sim);
            after.state.count == sim.state.count + 1 && Tracked(after, tape) && Early(after, plan, tape)
  {
    hide B.Step, B.Applied, Markets, Arrivals, ArrivalsFirst, At, Timely, Lined, ProbeSetup, SortedTape, Early,
         OutOfReach;
    var c, x, after := sim.state.count, B.Applied(ProbeSetup(plan, delay), sim), B.Step(ProbeSetup(plan, delay), sim);
    ProbeTimely(plan, delay, sim);
    EarlyGoesIn(plan, delay, sim, tape);
    MarketStep(plan, delay, sim);
    assert after.state.rested == false;
    TrackedKept(tape, c, x, after);
    EarlyKept(plan, delay, tape, c, x, after);
  }

  lemma ProbeTimely(plan: Plan, delay: nat, sim: B.Sim<Seen>)
    requires Timely(sim)
    ensures Timely(B.Step(ProbeSetup(plan, delay), sim))
  {
    ProbeActsOnMarketOnly(plan, delay);
    StepTimely(ProbeSetup(plan, delay), sim);
  }

  /** The placement: whatever was read ahead, the event to look at is among it. */
  lemma PlaceMarket(plan: Plan, delay: nat, sim: B.Sim<Seen>, tape: seq<MarketEvent>)
    requires GoodPlan(plan, tape, delay) && Tracked(sim, tape) && Early(sim, plan, tape)
             && sim.state.count == plan.place
    requires !B.Done(sim) && sim.desk.queue[0].payload.Market?
    ensures var after := B.Step(ProbeSetup(plan, delay), sim);
            && after.state.count == sim.state.count + 1 && Tracked(after, tape)
            && Coming(after, plan, Due(plan, tape, delay))
  {
    hide B.Step, B.Applied, Markets, Arrivals, ArrivalsFirst, At, Timely, Lined, ProbeSetup, SortedTape, Early,
         OutOfReach,
         Enqueue, Behind;
    var c, x, after := sim.state.count, B.Applied(ProbeSetup(plan, delay), sim), B.Step(ProbeSetup(plan, delay), sim);
    var bet := BetArrival(plan, Due(plan, tape, delay));
    ProbeTimely(plan, delay, sim);
    EarlyGoesIn(plan, delay, sim, tape);
    MarketStep(plan, delay, sim);
    EnqueueLined(x.desk.queue, bet);
    TrackedKept(tape, c, x, after);
    LookIsQueued(plan, delay, sim, x, tape);
    TailSorted(tape, c + 1);
    BehindPlaced(x.desk.queue, bet, tape[c + 1..], x.tape, plan.look - c - 1);
  }

  lemma TailSorted(tape: seq<MarketEvent>, k: nat)
    requires SortedTape(tape) && k <= |tape|
    ensures SortedTape(tape[k..])
  {
  }

  lemma LookIsQueued(plan: Plan, delay: nat, sim: B.Sim<Seen>, x: B.Sim<Seen>, tape: seq<MarketEvent>)
    requires GoodPlan(plan, tape, delay) && EarlyInside(x, plan, tape, plan.place) && Early(sim, plan, tape)
    requires sim.state.count == plan.place && Arrivals(x.desk.queue) == []
    ensures plan.look - plan.place - 1 < |Markets(x.desk.queue)|
    ensures tape[plan.place + 1..][plan.look - plan.place - 1].ts == Due(plan, tape, delay)
    ensures BetArrival(plan, Due(plan, tape, delay)) !in x.desk.queue
  {
    hide Arrivals, At, Lined, ArrivalsFirst, OutOfReach, Early;
    assert |Markets(x.desk.queue)| + |x.tape| == |tape| - plan.place - 1;
  }

  /** Between the placement and the event to look at. */
  lemma ComingMarket(plan: Plan, delay: nat, sim: B.Sim<Seen>, tape: seq<MarketEvent>)
    requires GoodPlan(plan, tape, delay) && Tracked(sim, tape) && Coming(sim, plan, Due(plan, tape, delay))
    requires plan.place < sim.state.count <= plan.look && !B.Done(sim) && sim.desk.queue[0].payload.Market?
    ensures var after := B.Step(ProbeSetup(plan, delay), sim);
            && after.state.count == sim.state.count + 1 && Tracked(after, tape)
            && (sim.state.count < plan.look ==> Coming(after, plan, Due(plan, tape, delay)))
  {
    hide B.Step, B.Applied, Markets, Arrivals, ArrivalsFirst, At, Timely, Lined, ProbeSetup, SortedTape, OutOfReach,
         Behind;
    var c, x, after := sim.state.count, B.Applied(ProbeSetup(plan, delay), sim), B.Step(ProbeSetup(plan, delay), sim);
    var due := Due(plan, tape, delay);
    ProbeTimely(plan, delay, sim);
    AppliedFacts(plan, delay, sim, tape, BetArrival(plan, due), plan.look - c);
    ComingAfterMarket(sim, plan, tape, due);
    MarketStep(plan, delay, sim);
    TrackedKept(tape, c, x, after);
    if c < plan.look { SameQueue(plan, delay, sim); }
  }

  lemma ComingAfterMarket(sim: B.Sim<Seen>, plan: Plan, tape: seq<MarketEvent>, due: Millis)
    requires OutOfReach(tape, plan.price) && Coming(sim, plan, due) && sim.state.count < |tape|
    ensures var core := Apply(Geopolitics, sim.desk.core, OnTape(tape[sim.state.count]));
            At(core, plan, UnderWay) && core.book.orders == []
  {
    hide Behind;
    MarketKeepsStage(sim.desk.core, tape[sim.state.count], plan, UnderWay);
  }

  /** Between placement and look, and after it, the callback does nothing. */
  lemma SameQueue(plan: Plan, delay: nat, sim: B.Sim<Seen>)
    requires !B.Done(sim) && sim.desk.queue[0].payload.Market? && sim.state.count != plan.place && sim.state.count != 0
    ensures B.Step(ProbeSetup(plan, delay), sim).desk.queue == B.Applied(ProbeSetup(plan, delay), sim).desk.queue
  {
    hide B.Applied;
    assert B.ActionsTaken(ProbeSetup(plan, delay), sim) == [];
  }

  /** After the look nothing is seen any more. */
  lemma LateMarket(plan: Plan, delay: nat, sim: B.Sim<Seen>, tape: seq<MarketEvent>)
    requires GoodPlan(plan, tape, delay) && Tracked(sim, tape) && plan.look < sim.state.count
    requires !B.Done(sim) && sim.desk.queue[0].payload.Market?
    ensures var after := B.Step(ProbeSetup(plan, delay), sim);
            after.state.count == sim.state.count + 1 && Tracked(after, tape)
  {
    hide B.Step, B.Applied, Markets, Arrivals, ArrivalsFirst, At, Timely, Lined, ProbeSetup, SortedTape, OutOfReach,
         Behind;
    ProbeTimely(plan, delay, sim);
    AppliedFacts(plan, delay, sim, tape, BetArrival(plan, 0), 0);
    MarketStep(plan, delay, sim);
    TrackedKept(tape, sim.state.count, B.Applied(ProbeSetup(plan, delay), sim), B.Step(ProbeSetup(plan, delay), sim));
  }

  lemma StepKeepsBackAt(plan: Plan, delay: nat, sim: B.Sim<Seen>, tape: seq<MarketEvent>)
    requires GoodPlan(plan, tape, delay) && BackAt(sim, plan, tape, Due(plan, tape, delay))
    ensures BackAt(B.Step(ProbeSetup(plan, delay), sim), plan, tape, Due(plan, tape, delay))
  {
    if B.Done(sim) {
      assert B.Step(ProbeSetup(plan, delay), sim) == sim;
    } else if !sim.desk.queue[0].payload.Market? {
      ArrivalKeepsBackAt(plan, delay, sim, tape);
    } else {
      hide B.Step, Tracked, Early, Coming, ProbeSetup;
      if sim.state.count < plan.place {
        EarlyMarket(plan, delay, sim, tape);
      } else if sim.state.count == plan.place {
        PlaceMarket(plan, delay, sim, tape);
      } else if sim.state.count <= plan.look {
        ComingMarket(plan, delay, sim, tape);
      } else {
        LateMarket(plan, delay, sim, tape);
      }
    }
  }

  lemma StartsBackAt(plan: Plan, delay: nat, book: Book, tape: seq<MarketEvent>)
    requires GoodPlan(plan, tape, delay) && SortedTape(tape) && book.orders == []
    ensures BackAt(B.Start(book, tape, Seen(0, false)), plan, tape, Due(plan, tape, delay))
  {
    StartLinked(book, tape, Seen(0, false));
    assert tape[0..] == tape;
    var start := B.Start(book, tape, Seen(0, false));
    assert start.desk.queue == [OnTape(tape[0])] && start.desk.queue[1..] == [];
  }

  lemma {:induction false} BackRun(plan: Plan, delay: nat, book: Book, tape: seq<MarketEvent>, n: nat)
    requires GoodPlan(plan, tape, delay) && SortedTape(tape) && book.orders == []
    ensures BackAt(B.After(ProbeSetup(plan, delay), B.Start(book, tape, Seen(0, false)), n), plan, tape,
                   Due(plan, tape, delay))
  {
    hide B.Step, B.Start, BackAt, SortedTape, OutOfReach, ProbeSetup;
    if n == 0 {
      StartsBackAt(plan, delay, book, tape);
    } else {
      BackRun(plan, delay, book, tape, n - 1);
      StepKeepsBackAt(plan, delay, B.After(ProbeSetup(plan, delay), B.Start(book, tape, Seen(0, false)), n - 1), tape);
    }
  }

  // ---------- the theorem ----------

  lemma PlanFor(tape: seq<MarketEvent>, delay: nat) returns (plan: Plan)
    requires SortedTape(tape) && !NoHarm(tape, delay)
    ensures GoodPlan(plan, tape, delay)
  {
    var price := LowPrice(tape);
    var i: nat, j: nat :| Harmful(tape, delay, i, j);
    if j == i + 1 {
      plan := Plan(0, i, j, price);
    } else if Harmful(tape, delay, 0, 1) {
      plan := Plan(0, 0, 1, price);
    } else {
      plan := Plan(|tape|, i, j, price);
    }
  }

  lemma PaperSees(plan: Plan, limits: Limits, delay: nat, book: Book, tape: seq<MarketEvent>)
    requires limits.Valid() && GoodPlan(plan, tape, delay) && SortedTape(tape) && book.orders == []
    ensures var t := Trading(plan, limits, delay, book, tape[..plan.look + 1]);
            !t.switch.halted && t.state.rested
  {
    hide Trading, SortedTape, OutOfReach, OnPlan;
    PaperRun(plan, limits, delay, book, tape, plan.look + 1);
  }

  lemma BackNeverSees(plan: Plan, delay: nat, book: Book, tape: seq<MarketEvent>, n: nat)
    requires GoodPlan(plan, tape, delay) && SortedTape(tape) && book.orders == []
    ensures !B.After(ProbeSetup(plan, delay), B.Start(book, tape, Seen(0, false)), n).state.rested
  {
    hide B.After, B.Start, SortedTape, OutOfReach, ProbeSetup, Early, Coming, Markets, Timely;
    BackRun(plan, delay, book, tape, n);
  }

  /**
   On every tape with a harmful pair, from any book and under any limits: there are a strategy that
   acts on market events only and reads no numbers, and a feed that stops at some event of the tape
   without a halt, after which the trader is in a state the backtest of the tape never reaches.
   */
  lemma HarmSeparates(book: Book, tape: seq<MarketEvent>, delay: nat, limits: Limits) returns (plan: Plan)
    requires limits.Valid() && SortedTape(tape) && !NoHarm(tape, delay) && book.orders == []
    ensures ActsOnMarketOnly(ProbeSetup(plan, delay).strategy) && IgnoresNumbers(ProbeSetup(plan, delay).strategy)
    ensures Constant(ProbeSetup(plan, delay).latency, delay) && plan.look < |tape|
    ensures var t := P.After(Paired(ProbeSetup(plan, delay), limits), P.Fresh(book, Seen(0, false)),
                             Messages(tape[..plan.look + 1]));
            && !t.switch.halted
            && forall n :: B.After(ProbeSetup(plan, delay), B.Start(book, tape, Seen(0, false)), n).state != t.state
  {
    plan := PlanFor(tape, delay);
    ProbeActsOnMarketOnly(plan, delay);
    assert plan.look < |tape|;
    hide B.Start, B.After, P.After, P.Fresh, SortedTape, ProbeSetup, GoodPlan, Messages;
    PaperSees(plan, limits, delay, book, tape);
    forall n: nat
      ensures !B.After(ProbeSetup(plan, delay), B.Start(book, tape, Seen(0, false)), n).state.rested
    {
      BackNeverSees(plan, delay, book, tape, n);
    }
  }

  /** Some state of the backtest is the one that the trader has reached. */
  ghost predicate Agree<S>(setup: B.Setup<S>, limits: Limits, book: Book, tape: seq<MarketEvent>, state: S,
                           inputs: seq<P.Input>)
    requires limits.Valid()
  {
    exists n :: SameState(B.After(setup, B.Start(book, tape, state), n),
                          P.After(Paired(setup, limits), P.Fresh(book, state), inputs),
                          if |EventsOf(inputs)| <= |tape| then tape[|EventsOf(inputs)|..] else [])
  }

  /** An untripped run of the trader on a prefix of the tape, of a strategy that acts on market events only. */
  ghost predicate Comparing<S(!new)>(setup: B.Setup<S>, limits: Limits, book: Book, tape: seq<MarketEvent>, delay: nat,
                                     state: S, inputs: seq<P.Input>) {
    && limits.Valid() && Constant(setup.latency, delay) && ActsOnMarketOnly(setup.strategy)
    && |EventsOf(inputs)| <= |tape| && EventsOf(inputs) == tape[..|EventsOf(inputs)|]
    && !P.After(Paired(setup, limits), P.Fresh(book, state), inputs).switch.halted
  }

  /** No strategy that does not read numbers, under no limits and on no run, tells the engines apart. */
  ghost predicate NeverSeparated(book: Book, tape: seq<MarketEvent>, delay: nat) {
    forall setup: B.Setup<Seen>, limits: Limits, state: Seen, inputs: seq<P.Input> ::
      Comparing(setup, limits, book, tape, delay, state, inputs) && IgnoresNumbers(setup.strategy) ==>
        Agree(setup, limits, book, tape, state, inputs)
  }

  lemma HarmlessAgree<S(!new)>(setup: B.Setup<S>, limits: Limits, book: Book, tape: seq<MarketEvent>, delay: nat,
                               state: S, inputs: seq<P.Input>)
    requires Wf(book) && book.orders == [] && SortedTape(tape) && NoHarm(tape, delay)
    requires Comparing(setup, limits, book, tape, delay, state, inputs)
    requires IgnoresNumbers(setup.strategy) || |tape| <= 1
    ensures Agree(setup, limits, book, tape, state, inputs)
  {
    hide B.After, B.Start, P.After, P.Fresh, SortedTape, NoHarm, ActsOnMarketOnly, SameState, Constant, Wf;
    var n := EnginesAgreeOnTape(setup, limits, book, tape, state, delay, inputs);
  }

  lemma DifferentStates<S>(setup: B.Setup<S>, limits: Limits, book: Book, tape: seq<MarketEvent>, state: S,
                           inputs: seq<P.Input>)
    requires limits.Valid()
    requires forall n :: B.After(setup, B.Start(book, tape, state), n).state
                         != P.After(Paired(setup, limits), P.Fresh(book, state), inputs).state
    ensures !Agree(setup, limits, book, tape, state, inputs)
  {
    hide B.After, B.Start, P.After, P.Fresh, Markets, Arrivals;
  }

  function SomeLimits(): (limits: Limits)
    ensures limits.Valid()
  {
    Limits(0.5, 1.0, 1.0, None, 1.0)
  }

  /**
   Exactly when the engines agree under a constant delay: no strategy that acts on market events only
   and reads no numbers, no limits and no untripped run separates them if and only if the tape has no
   harmful pair.
   */
  lemma AgreementIff(book: Book, tape: seq<MarketEvent>, delay: nat)
    requires Wf(book) && book.orders == [] && SortedTape(tape)
    ensures NoHarm(tape, delay) <==> NeverSeparated(book, tape, delay)
  {
    hide B.After, B.Start, P.After, P.Fresh, SortedTape, NoHarm, ActsOnMarketOnly, IgnoresNumbers, Agree, Constant, Wf;
    if NoHarm(tape, delay) {
      forall setup: B.Setup<Seen>, limits: Limits, state: Seen, inputs: seq<P.Input>
        | Comparing(setup, limits, book, tape, delay, state, inputs) && IgnoresNumbers(setup.strategy)
        ensures Agree(setup, limits, book, tape, state, inputs)
      {
        HarmlessAgree(setup, limits, book, tape, delay, state, inputs);
      }
    } else {
      var plan := HarmSeparates(book, tape, delay, SomeLimits());
      var setup, inputs := ProbeSetup(plan, delay), Messages(tape[..plan.look + 1]);
      EventsOfMessages(tape[..plan.look + 1]);
      DifferentStates(setup, SomeLimits(), book, tape, Seen(0, false), inputs);
      assert Comparing(setup, SomeLimits(), book, tape, delay, Seen(0, false), inputs);
    }
  }
}
