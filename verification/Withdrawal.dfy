/**
 Withdrawing quotes works: once a quoting strategy wants no quotes, nothing of it is filled
 later than one latency after. And the scheduled-jump gate withdraws exactly inside its windows.
 */
module Withdrawal {
  import opened Prelude
  import opened OrderBook
  import opened BookInvariant
  import opened Fees
  import opened TradingDesk
  import opened EventOrder
  import opened Quoting
  import opened BacktestRuns
  import opened NoLookAhead
  import opened OneOrderPerSide
  import opened PublicBook
  import B = Backtest

  /** The quotes the strategy wants on the event at the head of the queue. */
  function TargetsAt<I>(setup: B.Setup<QuoteState<I>>, quoter: Quoter<I>, sim: B.Sim<QuoteState<I>>): Targets
    requires sim.desk.queue != []
  {
    TargetsFor(quoter, sim.state, ViewOf(B.Applied(setup, sim).desk), sim.desk.queue[0])
  }

  /** The next step, if it requotes at all, wants no quote on either side. */
  ghost predicate Withdraws<I>(setup: B.Setup<QuoteState<I>>, quoter: Quoter<I>, sim: B.Sim<QuoteState<I>>) {
    sim.desk.queue != [] && Requotes(quoter, sim.desk.queue[0]) ==> TargetsAt(setup, quoter, sim) == (None, None)
  }

  /** No quote is wanted and whatever is under way lands by the deadline. */
  ghost predicate Dark<I>(sim: B.Sim<QuoteState<I>>, delay: nat, deadline: Millis) {
    && Tracked(sim, delay) && Stamped(sim.desk.queue)
    && sim.state.bid.oid.None? && sim.state.ask.oid.None?
    && ArrivalsBy(sim.desk.queue, deadline)
  }

  lemma StepState<I>(setup: B.Setup<QuoteState<I>>, quoter: Quoter<I>, sim: B.Sim<QuoteState<I>>)
    requires setup.strategy == AsStrategy(quoter) && !B.Done(sim)
    ensures var reply := OnEvent(quoter, sim.state, ViewOf(B.Applied(setup, sim).desk), sim.desk.queue[0]);
            && B.Step(setup, sim).state == reply.state
            && (reply.actions == [] ==> B.Step(setup, sim).desk.queue == B.Applied(setup, sim).desk.queue)
  {
  }

  lemma DarkBegins<I>(setup: B.Setup<QuoteState<I>>, quoter: Quoter<I>, sim: B.Sim<QuoteState<I>>, delay: nat)
    requires Tracked(sim, delay) && Stamped(sim.desk.queue) && !B.Done(sim)
    requires Constant(setup.latency, delay) && setup.strategy == AsStrategy(quoter)
    requires Requotes(quoter, sim.desk.queue[0]) && Withdraws(setup, quoter, sim)
    ensures Dark(B.Step(setup, sim), delay, sim.desk.queue[0].ts + delay)
  {
    hide B.Step, B.Applied, Timely, SideTracked;
    StepKeepsTracked(setup, quoter, sim, delay);
    StepTimely(setup, sim);
    StepStamped(setup, sim);
    StepState(setup, quoter, sim);
    var view := ViewOf(B.Applied(setup, sim).desk);
  }

  lemma QuietReply<I>(quoter: Quoter<I>, state: QuoteState<I>, view: View, e: Timed)
    requires state.bid.oid.None? && state.ask.oid.None?
    requires Requotes(quoter, e) ==> TargetsFor(quoter, state, view, e) == (None, None)
    ensures var reply := OnEvent(quoter, state, view, e);
            reply.actions == [] && reply.state.bid.oid.None? && reply.state.ask.oid.None?
  {
  }

  lemma AppliedArrivals<S>(setup: B.Setup<S>, sim: B.Sim<S>, deadline: Millis)
    requires ArrivalsBy(sim.desk.queue, deadline) && sim.desk.queue != []
    ensures ArrivalsBy(B.Applied(setup, sim).desk.queue, deadline)
  {
    if sim.tape != [] {
      ArrivalsByEnqueue(sim.desk.queue[1..], OnTape(sim.tape[0]), deadline);
    }
  }

  lemma DarkStays<I>(setup: B.Setup<QuoteState<I>>, quoter: Quoter<I>, sim: B.Sim<QuoteState<I>>, delay: nat,
                     deadline: Millis)
    requires Dark(sim, delay, deadline) && Withdraws(setup, quoter, sim)
    requires Constant(setup.latency, delay) && setup.strategy == AsStrategy(quoter)
    ensures Dark(B.Step(setup, sim), delay, deadline)
  {
    hide B.Step, B.Applied, Timely, SideTracked, OnEvent;
    if B.Done(sim) {
      DoneIsFinal(setup, sim);
    } else {
      StepKeepsTracked(setup, quoter, sim, delay);
      StepStamped(setup, sim);
      StepState(setup, quoter, sim);
      QuietReply(quoter, sim.state, ViewOf(B.Applied(setup, sim).desk), sim.desk.queue[0]);
      AppliedArrivals(setup, sim, deadline);
    }
  }

  lemma DoneIsFinal<S>(setup: B.Setup<S>, sim: B.Sim<S>)
    requires B.Done(sim)
    ensures B.Step(setup, sim) == sim
  {
  }

  /** When the next event is past the deadline, the book holds no order of ours. */
  lemma DarkBookIsEmpty<I>(sim: B.Sim<QuoteState<I>>, delay: nat, deadline: Millis)
    requires Dark(sim, delay, deadline) && sim.desk.queue != [] && sim.desk.queue[0].ts > deadline
    ensures sim.desk.core.book.orders == [] && sim.desk.queue[0].payload.Market?
  {
    forall x | x in sim.desk.queue ensures x.payload.Market? {
      var i :| 0 <= i < |sim.desk.queue| && sim.desk.queue[i] == x;
      HeadIsEarliest(sim.desk.queue, i);
    }
    NoScript(sim.desk.queue, Bid, sim.desk.history.placed);
    NoScript(sim.desk.queue, Ask, sim.desk.history.placed);
    if sim.desk.core.book.orders != [] {
      OnSideHas(sim.desk.core.book.orders, sim.desk.core.book.orders[0].side, 0);
    }
    assert sim.desk.queue[0] in sim.desk.queue;
  }

  lemma EmptyBookNoFill(category: FeeCategory, core: Core, e: Timed)
    requires core.book.orders == [] && e.payload.Market?
    ensures Apply(category, core, e).account.fills == core.account.fills
  {
  }

  ghost predicate FillsBy(before: Account, after: Account, deadline: Millis) {
    && |before.fills| <= |after.fills| && after.fills[..|before.fills|] == before.fills
    && forall i :: |before.fills| <= i < |after.fills| ==> after.fills[i].timestamp <= deadline
  }

  lemma FillsByTransitive(a: Account, b: Account, c: Account, deadline: Millis)
    requires FillsBy(a, b, deadline) && FillsBy(b, c, deadline)
    ensures FillsBy(a, c, deadline)
  {
    forall i | |a.fills| <= i < |c.fills| ensures c.fills[i].timestamp <= deadline {
      if i < |b.fills| { assert c.fills[..|b.fills|][i] == b.fills[i]; }
    }
    assert c.fills[..|b.fills|][..|a.fills|] == c.fills[..|a.fills|];
  }

  /** One dark step fills nothing after the deadline. */
  lemma DarkStepFills<I>(setup: B.Setup<QuoteState<I>>, sim: B.Sim<QuoteState<I>>, delay: nat, deadline: Millis)
    requires Dark(sim, delay, deadline)
    ensures FillsBy(sim.desk.core.account, B.Step(setup, sim).desk.core.account, deadline)
  {
    hide B.Step, Tracked, Apply;
    if B.Done(sim) {
      DoneIsFinal(setup, sim);
    } else {
      StepIsDelivery(setup, sim);
      assert sim.desk.queue[0] in sim.desk.queue;
      EventFillsAreStamped(setup.category, sim.desk.core, sim.desk.queue[0]);
      if sim.desk.queue[0].ts > deadline {
        DarkBookIsEmpty(sim, delay, deadline);
        EmptyBookNoFill(setup.category, sim.desk.core, sim.desk.queue[0]);
      }
    }
  }

  lemma {:induction false} DarkRun<I>(setup: B.Setup<QuoteState<I>>, quoter: Quoter<I>, sim: B.Sim<QuoteState<I>>,
                                      delay: nat, deadline: Millis, k: nat)
    requires Dark(sim, delay, deadline)
    requires Constant(setup.latency, delay) && setup.strategy == AsStrategy(quoter)
    requires forall j :: 0 <= j < k ==> Withdraws(setup, quoter, B.After(setup, sim, j))
    ensures Dark(B.After(setup, sim, k), delay, deadline)
    ensures FillsBy(sim.desk.core.account, B.After(setup, sim, k).desk.core.account, deadline)
  {
    hide B.Step, Dark, Withdraws, FillsBy;
    if k == 0 {
      NothingNew(sim.desk.core.account, deadline);
    } else {
      DarkRun(setup, quoter, sim, delay, deadline, k - 1);
      var before := B.After(setup, sim, k - 1);
      DarkStays(setup, quoter, before, delay, deadline);
      DarkStepFills(setup, before, delay, deadline);
      FillsByTransitive(sim.desk.core.account, before.desk.core.account, B.Step(setup, before).desk.core.account,
                        deadline);
    }
  }

  lemma NothingNew(account: Account, deadline: Millis)
    ensures FillsBy(account, account, deadline)
  {
  }

  /** The first step of a withdrawal only fills at its own time. */
  lemma FirstStepFills<S>(setup: B.Setup<S>, sim: B.Sim<S>, delay: nat)
    requires Stamped(sim.desk.queue) && !B.Done(sim)
    ensures FillsBy(sim.desk.core.account, B.Step(setup, sim).desk.core.account, sim.desk.queue[0].ts + delay)
  {
    hide B.Step, Apply;
    StepIsDelivery(setup, sim);
    assert sim.desk.queue[0] in sim.desk.queue;
    EventFillsAreStamped(setup.category, sim.desk.core, sim.desk.queue[0]);
  }

  lemma WithdrawnFrom<I>(setup: B.Setup<QuoteState<I>>, quoter: Quoter<I>, sim: B.Sim<QuoteState<I>>, delay: nat,
                         k: nat)
    requires Tracked(sim, delay) && Stamped(sim.desk.queue) && !B.Done(sim) && k > 0
    requires Constant(setup.latency, delay) && setup.strategy == AsStrategy(quoter)
    requires Requotes(quoter, sim.desk.queue[0])
    requires forall j :: 0 <= j < k ==> Withdraws(setup, quoter, B.After(setup, sim, j))
    ensures FillsBy(sim.desk.core.account, B.After(setup, sim, k).desk.core.account, sim.desk.queue[0].ts + delay)
  {
    hide B.Step, Tracked, Withdraws, Dark, Requotes, FillsBy;
    assert B.After(setup, sim, 0) == sim;
    assert B.After(setup, sim, 1) == B.Step(setup, sim);
    assert Withdraws(setup, quoter, B.After(setup, sim, 0));
    DarkBegins(setup, quoter, sim, delay);
    FirstStepFills(setup, sim, delay);
    var dark := B.Step(setup, sim);
    forall j | 0 <= j < k - 1 ensures Withdraws(setup, quoter, B.After(setup, dark, j)) {
      B.AfterSplits(setup, sim, 1, j + 1);
      assert Withdraws(setup, quoter, B.After(setup, sim, j + 1));
    }
    DarkRun(setup, quoter, dark, delay, sim.desk.queue[0].ts + delay, k - 1);
    B.AfterSplits(setup, sim, 1, k);
    FillsByTransitive(sim.desk.core.account, dark.desk.core.account, B.After(setup, sim, k).desk.core.account,
                      sim.desk.queue[0].ts + delay);
  }

  /**
   Withdrawal is effective. If a requote at time s, and every requote after it up to step m, wants
   no quote on either side, every fill since then happened by s + latency.
   */
  lemma NoFillAfterWithdrawal<I>(setup: B.Setup<QuoteState<I>>, quoter: Quoter<I>, book: Book, tape: seq<MarketEvent>,
                                 inner: I, delay: nat, n: nat, m: nat)
    requires Wf(book) && book.orders == [] && SortedTape(tape) && n < m
    requires Constant(setup.latency, delay) && setup.strategy == AsStrategy(quoter)
    requires !B.Done(B.After(setup, B.Start(book, tape, Initial(inner)), n))
    requires Requotes(quoter, B.After(setup, B.Start(book, tape, Initial(inner)), n).desk.queue[0])
    requires forall k :: n <= k < m ==> Withdraws(setup, quoter, B.After(setup, B.Start(book, tape, Initial(inner)), k))
    ensures var withdrawn, later := B.After(setup, B.Start(book, tape, Initial(inner)), n),
                B.After(setup, B.Start(book, tape, Initial(inner)), m);
            FillsBy(withdrawn.desk.core.account, later.desk.core.account, withdrawn.desk.queue[0].ts + delay)
  {
    hide B.Step, B.After, B.Start, Tracked, Withdraws, Requotes;
    var start := B.Start(book, tape, Initial(inner));
    var sim := B.After(setup, start, n);
    RunTracked(setup, quoter, book, tape, inner, delay, n);
    RunStamped(setup, book, tape, Initial(inner), n);
    forall j | 0 <= j < m - n ensures Withdraws(setup, quoter, B.After(setup, sim, j)) {
      B.AfterSplits(setup, start, n, n + j);
      assert Withdraws(setup, quoter, B.After(setup, start, n + j));
    }
    WithdrawnFrom(setup, quoter, sim, delay, m - n);
    B.AfterSplits(setup, start, n, m);
  }

  // ---------- the scheduled-jump gate ----------

  /** Withdraw windows around scheduled jumps; the schedule is kept sorted. */
  datatype JumpGate = JumpGate(schedule: seq<int>, preWithdraw: int, postResume: int)

  predicate InWindow(gate: JumpGate, jump: int, now: int) {
    jump - gate.preWithdraw <= now <= jump + gate.postResume
  }

  ghost predicate SortedSchedule(schedule: seq<int>) {
    forall i, j :: 0 <= i < j < |schedule| ==> schedule[i] <= schedule[j]
  }

  predicate InSomeWindow(gate: JumpGate, now: int) {
    exists i :: 0 <= i < |gate.schedule| && InWindow(gate, gate.schedule[i], now)
  }

  /** The scan stops early, and still finds a window exactly when there is one. */
  method InJumpWindow(gate: JumpGate, now: int) returns (inside: bool)
    requires SortedSchedule(gate.schedule)
    ensures inside <==> InSomeWindow(gate, now)
    ensures inside <==> exists i :: 0 <= i < |gate.schedule|
                              && gate.schedule[i] - gate.preWithdraw <= now <= gate.schedule[i] + gate.postResume
  {
    for i := 0 to |gate.schedule|
      invariant forall k :: 0 <= k < i ==> !InWindow(gate, gate.schedule[k], now)
    {
      var jump := gate.schedule[i];
      if jump - gate.preWithdraw <= now <= jump + gate.postResume {
        return true;
      }
      if jump - gate.preWithdraw > now {
        break;
      }
    }
    return false;
  }

  /** The withdraw gates in front of the pricing of the signal-driven quoter. */
  function GatedQuotes<I>(gate: JumpGate, toxic: I -> bool, price: (I, View) -> (I, Targets), inner: I,
                          view: View): (I, Targets) {
    if BestBid(view.book).None? || BestAsk(view.book).None? then (inner, (None, None))
    else if toxic(inner) then (inner, (None, None))
    else if gate.schedule != [] && InSomeWindow(gate, view.now) then (inner, (None, None))
    else price(inner, view)
  }

  /** The quoter withdraws exactly on a book with an empty side, on toxic flow, and inside a window. */
  lemma GatedIff<I>(gate: JumpGate, toxic: I -> bool, price: (I, View) -> (I, Targets), inner: I, view: View)
    ensures var open := (exists p :: p in view.book.bids) && (exists p :: p in view.book.asks) && !toxic(inner)
                        && forall i :: 0 <= i < |gate.schedule| ==>
                             view.now < gate.schedule[i] - gate.preWithdraw
                             || gate.schedule[i] + gate.postResume < view.now;
            GatedQuotes(gate, toxic, price, inner, view) == if open then price(inner, view) else (inner, (None, None))
  {
    BestBidIs(view.book);
    BestAskIs(view.book);
  }

  ghost predicate IsGated<I(!new)>(quoter: Quoter<I>, gate: JumpGate, toxic: I -> bool,
                                   price: (I, View) -> (I, Targets)) {
    forall inner: I, view: View :: quoter.desired(inner, view) == GatedQuotes(gate, toxic, price, inner, view)
  }

  lemma GateWithdraws<I(!new)>(setup: B.Setup<QuoteState<I>>, quoter: Quoter<I>, sim: B.Sim<QuoteState<I>>,
                               gate: JumpGate, toxic: I -> bool, price: (I, View) -> (I, Targets), jump: int)
    requires IsGated(quoter, gate, toxic, price) && jump in gate.schedule
    requires !B.Done(sim) ==> InWindow(gate, jump, sim.desk.queue[0].ts)
    requires !sim.raised
    ensures Withdraws(setup, quoter, sim)
  {
    if sim.desk.queue != [] {
      var view := ViewOf(B.Applied(setup, sim).desk);
      assert view.now == sim.desk.queue[0].ts;
      assert InSomeWindow(gate, view.now);
    }
  }

  lemma StepClock<S>(setup: B.Setup<S>, sim: B.Sim<S>)
    requires !B.Done(sim)
    ensures B.Step(setup, sim).desk.now == sim.desk.queue[0].ts
  {
    StepIsDelivery(setup, sim);
  }

  /**
   Dark around a jump: after the first requote inside a scheduled window, at time s, the strategy
   is filled nothing between s + latency and the end of the window.
   */
  lemma NoFillInsideJumpWindow<I(!new)>(setup: B.Setup<QuoteState<I>>, quoter: Quoter<I>, book: Book,
                                        tape: seq<MarketEvent>,
                                        inner: I, delay: nat, n: nat, m: nat,
                                        gate: JumpGate, toxic: I -> bool, price: (I, View) -> (I, Targets), jump: int)
    requires Wf(book) && book.orders == [] && SortedTape(tape) && n < m
    requires Constant(setup.latency, delay) && setup.strategy == AsStrategy(quoter)
    requires IsGated(quoter, gate, toxic, price) && jump in gate.schedule
    requires !B.Done(B.After(setup, B.Start(book, tape, Initial(inner)), n))
    requires var head := B.After(setup, B.Start(book, tape, Initial(inner)), n).desk.queue[0];
             Requotes(quoter, head) && jump - gate.preWithdraw <= head.ts
    requires B.After(setup, B.Start(book, tape, Initial(inner)), m).desk.now <= jump + gate.postResume
    ensures var first, later := B.After(setup, B.Start(book, tape, Initial(inner)), n),
                B.After(setup, B.Start(book, tape, Initial(inner)), m);
            FillsBy(first.desk.core.account, later.desk.core.account, first.desk.queue[0].ts + delay)
  {
    hide B.Step, B.After, B.Start, Tracked, Withdraws, IsGated;
    var start := B.Start(book, tape, Initial(inner));
    var head := B.After(setup, start, n).desk.queue[0];
    forall k | n <= k < m ensures Withdraws(setup, quoter, B.After(setup, start, k)) {
      InWindowUntil(setup, quoter, book, tape, inner, delay, n, k, m, gate, jump);
      RunTracked(setup, quoter, book, tape, inner, delay, k);
      GateWithdraws(setup, quoter, B.After(setup, start, k), gate, toxic, price, jump);
    }
    NoFillAfterWithdrawal(setup, quoter, book, tape, inner, delay, n, m);
  }

  lemma ClockAt<S>(setup: B.Setup<S>, start: B.Sim<S>, k: nat)
    requires !B.Done(B.After(setup, start, k))
    ensures B.After(setup, start, k + 1).desk.now == B.After(setup, start, k).desk.queue[0].ts
  {
    hide B.Step;
    StepClock(setup, B.After(setup, start, k));
  }

  /** What is next on the queue at step n comes no later than what is next at step k, and that by step m > k. */
  lemma NextEventsInOrder<S>(setup: B.Setup<S>, book: Book, tape: seq<MarketEvent>, state: S, n: nat, k: nat, m: nat)
    requires SortedTape(tape) && Causal(setup.latency) && n <= k < m
    requires !B.Done(B.After(setup, B.Start(book, tape, state), n))
             && !B.Done(B.After(setup, B.Start(book, tape, state), k))
    ensures B.After(setup, B.Start(book, tape, state), n).desk.queue[0].ts
            <= B.After(setup, B.Start(book, tape, state), k).desk.queue[0].ts
    ensures B.After(setup, B.Start(book, tape, state), k).desk.queue[0].ts
            <= B.After(setup, B.Start(book, tape, state), m).desk.now
  {
    hide B.After, B.Start, SortedTape, Causal;
    var start := B.Start(book, tape, state);
    ClockAt(setup, start, k);
    ClockAt(setup, start, n);
    ClockNeverGoesBack(setup, book, tape, state, n + 1, k + 1);
    ClockNeverGoesBack(setup, book, tape, state, k + 1, m);
  }

  /** Between the first event in the window and a state before its end, every event is inside. */
  lemma InWindowUntil<I>(setup: B.Setup<QuoteState<I>>, quoter: Quoter<I>, book: Book, tape: seq<MarketEvent>,
                         inner: I, delay: nat, n: nat, k: nat, m: nat, gate: JumpGate, jump: int)
    requires SortedTape(tape) && n <= k < m && Constant(setup.latency, delay)
    requires !B.Done(B.After(setup, B.Start(book, tape, Initial(inner)), n))
    requires jump - gate.preWithdraw <= B.After(setup, B.Start(book, tape, Initial(inner)), n).desk.queue[0].ts
    requires B.After(setup, B.Start(book, tape, Initial(inner)), m).desk.now <= jump + gate.postResume
    ensures var sim := B.After(setup, B.Start(book, tape, Initial(inner)), k);
            !B.Done(sim) ==> InWindow(gate, jump, sim.desk.queue[0].ts)
  {
    hide B.After, B.Start, SortedTape;
    assert Causal(setup.latency);
    if !B.Done(B.After(setup, B.Start(book, tape, Initial(inner)), k)) {
      NextEventsInOrder(setup, book, tape, Initial(inner), n, k, m);
    }
  }
}
