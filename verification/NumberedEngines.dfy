/**
 What numbers do to the engines. The backtester numbers the second event of a tape before the first
 callback can send anything, the paper trader when it processes it. So a strategy that reads numbers
 is told apart on every tape of two events or more - and on no shorter one.
 */
module NumberedEngines {
  import opened OrderBook
  import opened BookInvariant
  import opened Fees
  import opened TradingDesk
  import opened EventOrder
  import opened KillSwitches
  import opened Quoting
  import opened HaltProtocol
  import opened EngineEquivalence
  import opened HarmfulTies
  import B = Backtest
  import P = Paper

  /** Sends one cancel at the first event; at the second, remembers its number and places a bid sized by it. */
  function ReadSecond(s: nat, view: View, e: Timed, n: nat): Reply<nat> {
    if !e.payload.Market? || s > 1 then Reply(s, [])
    else if s == 0 then Reply(1, [CancelOrder(0)])
    else Reply(2 + n, [PlaceOrder(Bid, 1.0, if n % 2 == 0 then 1.0 else 2.0, true)])
  }

  function ReadSetup(latency: Latency): B.Setup<nat> {
    B.Setup(Geopolitics, latency, Strategy((s: nat, v: View, e: Timed, n: nat) => ReadSecond(s, v, e, n)))
  }

  lemma ReadActsOnMarketOnly(latency: Latency)
    ensures ActsOnMarketOnly(ReadSetup(latency).strategy)
  {
    var strategy := ReadSetup(latency).strategy;
    forall s: nat, v: View, e: Timed, n: nat
      ensures !Raises(strategy.onEvent(s, v, e, n).actions)
      ensures !e.payload.Market? ==> strategy.onEvent(s, v, e, n) == Reply(s, [])
    {
      AllowedAll(strategy.onEvent(s, v, e, n).actions);
    }
  }

  lemma FirstCall(latency: Latency, d: Desk, e: Timed, n: nat)
    requires e.payload.Market?
    ensures var (after, s, raised) := Called(ReadSetup(latency).strategy, latency, d, 0, e, n);
            && after.queue == Enqueue(d.queue, Timed(latency(d.draws, d.now), CancelArrival(0)))
            && after.core == d.core && after.nextId == d.nextId && after.now == d.now && s == 1 && !raised
    ensures Allowed(ReadSecond(0, ViewOf(d), e, n).actions) == [CancelOrder(0)]
  {
    hide Enqueue;
    var actions := [CancelOrder(0)];
    AllowedAll(actions);
    assert actions[..0] == [];
    assert PerformAll(latency, d, actions) == Perform(latency, d, actions[0]);
  }

  // ---------- the backtester ----------

  /** The next market event of the queue is next or behind the cancel, and carries number 1. */
  ghost predicate SecondIsOne(sim: B.Sim<nat>, e: MarketEvent) {
    && sim.state == 1 && !sim.raised && (forall i :: 0 <= i < |sim.tape| ==> e.ts <= sim.tape[i].ts)
    && ((|sim.desk.queue| >= 1 && sim.desk.queue[0] == OnTape(e) && sim.numbers != [] && sim.numbers[0] == 1)
        || (|sim.desk.queue| == 2 && !sim.desk.queue[0].payload.Market? && sim.desk.queue[1] == OnTape(e)
            && |sim.numbers| == 2 && sim.numbers[1] == 1))
  }

  lemma AfterFirst(latency: Latency, book: Book, tape: seq<MarketEvent>)
    requires |tape| >= 2 && SortedTape(tape)
    ensures var one := B.After(ReadSetup(latency), B.Start(book, tape, 0), 1);
            SecondIsOne(one, tape[1])
  {
    hide Apply, Noted;
    var start := B.Start(book, tape, 0);
    assert start.desk.queue == [OnTape(tape[0])] && start.numbers == [0] && start.tape == tape[1..];
    var x := B.Applied(ReadSetup(latency), start);
    assert x.desk.queue == [OnTape(tape[1])] && x.numbers == [1] && x.tape == tape[2..];
    FirstCall(latency, x.desk, OnTape(tape[0]), B.HeadNumber(start));
    var cancel := Timed(latency(x.desk.draws, x.desk.now), CancelArrival(0));
    var actions := B.ActionsTaken(ReadSetup(latency), start);
    assert actions == [CancelOrder(0)] && actions[..0] == [];
    assert NumbersAfter(latency, x.desk, actions, x.numbers, x.pushes)
        == NumberIn(x.desk.queue, x.numbers, cancel.ts, x.pushes);
    assert B.After(ReadSetup(latency), start, 0) == start;
  }

  lemma Silent(latency: Latency, sim: B.Sim<nat>)
    requires !B.Done(sim) && (!sim.desk.queue[0].payload.Market? || sim.state > 1)
    ensures var x, after := B.Applied(ReadSetup(latency), sim), B.Step(ReadSetup(latency), sim);
            && after.state == sim.state && !after.raised && after.tape == x.tape
            && after.desk.queue == x.desk.queue && after.numbers == x.numbers
  {
    hide B.Applied;
    assert B.ActionsTaken(ReadSetup(latency), sim) == [];
  }

  lemma ReadsOne(latency: Latency, sim: B.Sim<nat>)
    requires !B.Done(sim) && sim.desk.queue[0].payload.Market? && sim.state == 1 && B.HeadNumber(sim) == 1
    ensures B.Step(ReadSetup(latency), sim).state == 3
  {
    hide B.Applied, PerformAll, NumbersAfter;
  }

  lemma StepReads(latency: Latency, sim: B.Sim<nat>, e: MarketEvent)
    requires SecondIsOne(sim, e) || sim.state == 3
    ensures SecondIsOne(B.Step(ReadSetup(latency), sim), e) || B.Step(ReadSetup(latency), sim).state == 3
  {
    if !B.Done(sim) {
      if sim.state == 3 {
        Silent(latency, sim);
      } else if sim.desk.queue[0].payload.Market? {
        ReadsOne(latency, sim);
      } else {
        Silent(latency, sim);
        CancelPopped(latency, sim, e);
      }
    }
  }

  lemma CancelPopped(latency: Latency, sim: B.Sim<nat>, e: MarketEvent)
    requires SecondIsOne(sim, e) && !sim.desk.queue[0].payload.Market?
    ensures var x := B.Applied(ReadSetup(latency), sim);
            x.desk.queue != [] && x.desk.queue[0] == OnTape(e) && x.numbers != [] && x.numbers[0] == 1
    ensures B.Applied(ReadSetup(latency), sim).tape == if sim.tape == [] then [] else sim.tape[1..]
  {
    hide Apply, Noted;
    assert sim.desk.queue[1..] == [OnTape(e)] && sim.numbers[1..] == [1];
  }

  lemma {:induction false} BacktestReadsOne(latency: Latency, book: Book, tape: seq<MarketEvent>, n: nat)
    requires |tape| >= 2 && SortedTape(tape)
    ensures B.After(ReadSetup(latency), B.Start(book, tape, 0), n).state in {0, 1, 3}
    ensures n > 0 ==> var sim := B.After(ReadSetup(latency), B.Start(book, tape, 0), n);
                      SecondIsOne(sim, tape[1]) || sim.state == 3
  {
    hide B.Step, ReadSetup, SortedTape;
    if n == 1 {
      AfterFirst(latency, book, tape);
    } else if n > 1 {
      BacktestReadsOne(latency, book, tape, n - 1);
      StepReads(latency, B.After(ReadSetup(latency), B.Start(book, tape, 0), n - 1), tape[1]);
    }
  }

  // ---------- the paper trader ----------

  /** No order of ours, no profit, only cancels of nothing under way. */
  ghost predicate Idle(t: P.Trader<nat>, plan: Plan) {
    OnPlan(t.desk, plan, 0) && StageOf(t.desk.core).Waiting? && Calm(t.switch)
  }

  lemma FreshIsIdle(book: Book, plan: Plan)
    requires book.orders == []
    ensures Idle(P.Fresh(book, 0), plan)
  {
  }

  /** An event up to its callback leaves the trader idle, and is numbered by the count so far. */
  lemma IdleTicks(limits: Limits, t: P.Trader<nat>, plan: Plan, event: MarketEvent)
    requires limits.Valid() && Idle(t, plan) && t.desk.now <= event.ts
             && (event.LastTrade? ==> plan.price < event.price)
    ensures var drained := P.Drained(Geopolitics, t, event.ts);
            var ticked := P.SwitchTicked(limits, P.MarketApplied(Geopolitics, drained, event), 0.0);
            && Idle(ticked, plan) && ticked.desk.now == event.ts && ticked.state == t.state
            && drained.seqCounter == t.seqCounter && ticked.seqCounter == t.seqCounter + 1
  {
    hide OnPlan, Ticked, P.Drained, MarkToMid, StageOf, Apply;
    DrainedOnPlan(t, plan, 0, event.ts);
    DrainKeepsCount(Geopolitics, t, event.ts);
    var drained := P.Drained(Geopolitics, t, event.ts);
    MarketOnPlan(drained, plan, 0, event);
    var applied := P.MarketApplied(Geopolitics, drained, event);
    CalmTick(limits, applied.switch, 0.0, MarkToMid(applied.desk.core.account), applied.desk.core.account.inventory);
  }

  lemma FirstEventRead(latency: Latency, limits: Limits, t: P.Trader<nat>, plan: Plan, event: MarketEvent)
    requires limits.Valid() && Idle(t, plan) && t.desk.now <= event.ts
             && (event.LastTrade? ==> plan.price < event.price)
    requires t.state == 0 && t.seqCounter == 0
    ensures var after := P.EventProcessed(Paired(ReadSetup(latency), limits), t, event, 0.0);
            Idle(after, plan) && after.desk.now == event.ts && after.state == 1 && after.seqCounter == 2
  {
    hide OnPlan, P.Drained, P.SwitchTicked, Called, StageOf;
    IdleTicks(limits, t, plan, event);
    var drained := P.Drained(Geopolitics, t, event.ts);
    var ticked := P.SwitchTicked(limits, P.MarketApplied(Geopolitics, drained, event), 0.0);
    FirstCall(latency, ticked.desk, OnTape(event), 0);
    var cancel := Timed(latency(ticked.desk.draws, ticked.desk.now), CancelArrival(0));
    CancelOnPlan(ticked.desk, Called(ReadSetup(latency).strategy, latency, ticked.desk, 0, OnTape(event), 0).0, plan,
                 cancel);
  }

  lemma CancelOnPlan(before: Desk, after: Desk, plan: Plan, cancel: Timed)
    requires OnPlan(before, plan, 0) && cancel.payload == CancelArrival(0)
    requires after.core == before.core && after.queue == Enqueue(before.queue, cancel)
    ensures OnPlan(after, plan, 0)
  {
    hide At, Enqueue, Markets, Arrivals, ArrivalsFirst;
    EnqueueLined(before.queue, cancel);
  }

  lemma SecondEventRead(latency: Latency, limits: Limits, t: P.Trader<nat>, plan: Plan, event: MarketEvent)
    requires limits.Valid() && Idle(t, plan) && t.desk.now <= event.ts
             && (event.LastTrade? ==> plan.price < event.price)
    requires t.state == 1 && t.seqCounter == 2
    ensures var after := P.EventProcessed(Paired(ReadSetup(latency), limits), t, event, 0.0);
            after.state == 4 && !after.switch.halted
  {
    hide OnPlan, P.Drained, P.SwitchTicked, StageOf, PerformAll;
    IdleTicks(limits, t, plan, event);
  }

  /**
   On every tape of two events or more, from any book, under any limits and any latency: a strategy
   that acts on market events only reads number 1 on the second event in the backtester and 2 in the
   paper trader, and sizes its order by it; the trader's state is one the backtest never reaches.
   */
  lemma SecondNumberSeparates(book: Book, tape: seq<MarketEvent>, latency: Latency, limits: Limits)
    requires limits.Valid() && SortedTape(tape) && |tape| >= 2 && book.orders == []
    ensures ActsOnMarketOnly(ReadSetup(latency).strategy)
    ensures var t := P.After(Paired(ReadSetup(latency), limits), P.Fresh(book, 0), Messages(tape[..2]));
            && !t.switch.halted && t.state == 4
            && forall n :: B.After(ReadSetup(latency), B.Start(book, tape, 0), n).state in {0, 1, 3}
  {
    hide B.Step, B.Start, B.After, P.Fresh, P.EventProcessed, SortedTape, Idle, OutOfReach, ReadSetup;
    ReadActsOnMarketOnly(latency);
    TwoEventsRead(book, tape, latency, limits);
    forall n: nat ensures B.After(ReadSetup(latency), B.Start(book, tape, 0), n).state in {0, 1, 3} {
      BacktestReadsOne(latency, book, tape, n);
    }
  }

  lemma TwoEventsRead(book: Book, tape: seq<MarketEvent>, latency: Latency, limits: Limits)
    requires limits.Valid() && SortedTape(tape) && |tape| >= 2 && book.orders == []
    ensures var t := P.After(Paired(ReadSetup(latency), limits), P.Fresh(book, 0), Messages(tape[..2]));
            !t.switch.halted && t.state == 4
  {
    hide P.EventProcessed, ReadSetup;
    var price := LowPrice(tape);
    var plan, setup, start := Plan(0, 0, 0, price), Paired(ReadSetup(latency), limits), P.Fresh(book, 0);
    FreshIsIdle(book, plan);
    hide Idle, P.Fresh;
    var inputs := Messages(tape[..2]);
    assert inputs == [Message(tape[0]), Message(tape[1])];
    assert inputs[..1] == [Message(tape[0])] && [Message(tape[0])][..0] == [];
    NotedIdle(start, plan);
    FirstEventRead(latency, limits, start.(switch := MessageNoted(start.switch, 0.0)), plan, tape[0]);
    assert P.After(setup, start, []) == start;
    var one := P.After(setup, start, inputs[..1]);
    assert one == P.Handle(setup, start, Message(tape[0]));
    NotedIdle(one, plan);
    SecondEventRead(latency, limits, one.(switch := MessageNoted(one.switch, 0.0)), plan, tape[1]);
    assert P.After(setup, start, inputs) == P.Handle(setup, one, Message(tape[1]));
  }

  lemma NotedIdle(t: P.Trader<nat>, plan: Plan)
    requires Idle(t, plan)
    ensures Idle(t.(switch := MessageNoted(t.switch, 0.0)), plan)
  {
  }

  // ---------- the theorem ----------

  /** No strategy, number-reading or not, under no limits and on no run, tells the engines apart. */
  ghost predicate NeverSeparatedByReaders(book: Book, tape: seq<MarketEvent>, delay: nat) {
    forall setup: B.Setup<nat>, limits: Limits, state: nat, inputs: seq<P.Input> ::
      Comparing(setup, limits, book, tape, delay, state, inputs) ==> Agree(setup, limits, book, tape, state, inputs)
  }

  /** For strategies that may read numbers the engines agree if and only if the tape has at most one event. */
  lemma ReadersAgreeIff(book: Book, tape: seq<MarketEvent>, delay: nat)
    requires Wf(book) && book.orders == [] && SortedTape(tape)
    ensures |tape| <= 1 <==> NeverSeparatedByReaders(book, tape, delay)
  {
    hide B.After, B.Start, P.After, P.Fresh, SortedTape, ActsOnMarketOnly, Agree, Wf;
    if |tape| <= 1 {
      forall setup: B.Setup<nat>, limits: Limits, state: nat, inputs: seq<P.Input>
        | Comparing(setup, limits, book, tape, delay, state, inputs)
        ensures Agree(setup, limits, book, tape, state, inputs)
      {
        HarmlessAgree(setup, limits, book, tape, delay, state, inputs);
      }
    } else {
      var latency := (n: nat, now: Millis) => now + delay;
      var setup, inputs := ReadSetup(latency), Messages(tape[..2]);
      SecondNumberSeparates(book, tape, latency, SomeLimits());
      EventsOfMessages(tape[..2]);
      DifferentStates(setup, SomeLimits(), book, tape, 0, inputs);
      assert Comparing(setup, SomeLimits(), book, tape, delay, 0, inputs);
    }
  }
}
