/**
 No look-ahead. Two runs of the same strategy on two sorted tapes that agree up to a time make the
 same callbacks, orders and fills up to that time - provided the strategy does not read the sequence
 number of the event it is given. What numbers do to this is in SequenceNumbers.
 */
module NoLookAhead {
  import opened OrderBook
  import opened TradingDesk
  import opened DeskInvariant
  import opened EventOrder
  import opened BacktestRuns
  import opened Fees
  import B = Backtest

  function UpTo(queue: seq<Timed>, t: Millis): seq<Timed> {
    if queue == [] then []
    else (if queue[0].ts <= t then [queue[0]] else []) + UpTo(queue[1..], t)
  }

  function TapeUpTo(tape: seq<MarketEvent>, t: Millis): seq<MarketEvent> {
    if tape == [] then []
    else (if tape[0].ts <= t then [tape[0]] else []) + TapeUpTo(tape[1..], t)
  }

  lemma {:induction false} UpToIsEmpty(queue: seq<Timed>, t: Millis)
    requires forall i :: 0 <= i < |queue| ==> t < queue[i].ts
    ensures UpTo(queue, t) == []
  {
    if queue != [] { UpToIsEmpty(queue[1..], t); }
  }

  lemma {:induction false} UpToEnqueue(queue: seq<Timed>, e: Timed, t: Millis)
    requires Sorted(queue)
    ensures UpTo(Enqueue(queue, e), t) == if e.ts <= t then Enqueue(UpTo(queue, t), e) else UpTo(queue, t)
  {
    if queue == [] {
    } else if e.ts < queue[0].ts {
      assert ([e] + queue)[1..] == queue;
      if queue[0].ts > t {
        forall i | 0 <= i < |queue| ensures t < queue[i].ts { HeadIsEarliest(queue, i); }
        UpToIsEmpty(queue, t);
      }
    } else {
      UpToEnqueue(queue[1..], e, t);
      assert ([queue[0]] + Enqueue(queue[1..], e))[1..] == Enqueue(queue[1..], e);
      if queue[0].ts <= t {
        assert ([queue[0]] + UpTo(queue[1..], t))[1..] == UpTo(queue[1..], t);
      }
    }
  }

  /** A callback, whatever number its event carried. */
  function Plain(c: Call): Call {
    c.(seqNo := 0)
  }

  function PlainCalls(calls: seq<Call>): seq<Call> {
    seq(|calls|, i requires 0 <= i < |calls| => Plain(calls[i]))
  }

  function Unnumbered(h: History): History {
    h.(calls := PlainCalls(h.calls))
  }

  function Shape(d: Desk): Desk {
    d.(queue := [], history := Unnumbered(d.history))
  }

  /** Everything but the events later than `t` and the numbers callbacks carried is the same. */
  ghost predicate SameDesk(a: Desk, b: Desk, t: Millis) {
    && Shape(a) == Shape(b)
    && Sorted(a.queue) && Sorted(b.queue) && UpTo(a.queue, t) == UpTo(b.queue, t)
  }

  ghost predicate SameUpTo<S>(a: B.Sim<S>, b: B.Sim<S>, t: Millis) {
    && SameDesk(a.desk, b.desk, t) && a.state == b.state && a.raised == b.raised
    && SortedTape(a.tape) && SortedTape(b.tape) && TapeUpTo(a.tape, t) == TapeUpTo(b.tape, t)
  }

  /** The next step handles an event not later than `t`. */
  ghost predicate WithinHorizon<S>(sim: B.Sim<S>, t: Millis) {
    !sim.raised && sim.desk.queue != [] && sim.desk.queue[0].ts <= t
  }

  lemma {:induction false} TapeBeyond(tape: seq<MarketEvent>, t: Millis)
    requires SortedTape(tape) && tape != [] && tape[0].ts > t
    ensures TapeUpTo(tape, t) == []
  {
    if |tape| > 1 {
      TapeTail(tape);
      TapeBeyond(tape[1..], t);
    }
  }

  lemma SameHead(a: Desk, b: Desk, t: Millis)
    requires SameDesk(a, b, t) && a.queue != [] && a.queue[0].ts <= t
    ensures b.queue != [] && b.queue[0] == a.queue[0]
    ensures SameDesk(a.(queue := a.queue[1..]), b.(queue := b.queue[1..]), t)
  {
    assert UpTo(a.queue, t)[0] == a.queue[0];
    if b.queue != [] && b.queue[0].ts > t {
      forall i | 0 <= i < |b.queue| ensures t < b.queue[i].ts { HeadIsEarliest(b.queue, i); }
      UpToIsEmpty(b.queue, t);
    }
    assert UpTo(a.queue, t)[1..] == UpTo(a.queue[1..], t);
    assert UpTo(b.queue, t)[1..] == UpTo(b.queue[1..], t);
  }

  lemma SameEnqueue(a: Desk, b: Desk, e: Timed, t: Millis)
    requires SameDesk(a, b, t)
    ensures SameDesk(a.(queue := Enqueue(a.queue, e)), b.(queue := Enqueue(b.queue, e)), t)
  {
    EnqueueSorted(a.queue, e);
    EnqueueSorted(b.queue, e);
    UpToEnqueue(a.queue, e, t);
    UpToEnqueue(b.queue, e, t);
  }

  lemma LateEnqueue(a: Desk, b: Desk, e: Timed, t: Millis)
    requires SameDesk(a, b, t) && e.ts > t
    ensures SameDesk(a.(queue := Enqueue(a.queue, e)), b, t)
    ensures SameDesk(a, b.(queue := Enqueue(b.queue, e)), t)
  {
    EnqueueSorted(a.queue, e);
    EnqueueSorted(b.queue, e);
    UpToEnqueue(a.queue, e, t);
    UpToEnqueue(b.queue, e, t);
  }

  lemma SameRefill<S>(a: B.Sim<S>, b: B.Sim<S>, t: Millis)
    requires SameUpTo(a, b, t)
    ensures SameUpTo(B.Refilled(a), B.Refilled(b), t)
  {
    if a.tape != [] { TapeTail(a.tape); }
    if b.tape != [] { TapeTail(b.tape); }
    if a.tape != [] && a.tape[0].ts <= t {
      assert TapeUpTo(a.tape, t)[0] == a.tape[0];
      if b.tape != [] && b.tape[0].ts > t { TapeBeyond(b.tape, t); }
      assert b.tape[0] == a.tape[0];
      assert TapeUpTo(a.tape, t)[1..] == TapeUpTo(a.tape[1..], t);
      assert TapeUpTo(b.tape, t)[1..] == TapeUpTo(b.tape[1..], t);
      SameEnqueue(a.desk, b.desk, OnTape(a.tape[0]), t);
    } else {
      if b.tape != [] && b.tape[0].ts <= t && a.tape != [] { TapeBeyond(a.tape, t); }
      assert b.tape == [] || b.tape[0].ts > t;
      RefillBeyond(a, b, t);
    }
  }

  lemma RefillBeyond<S>(a: B.Sim<S>, b: B.Sim<S>, t: Millis)
    requires SameUpTo(a, b, t)
    requires a.tape == [] || a.tape[0].ts > t
    requires b.tape == [] || b.tape[0].ts > t
    ensures SameUpTo(B.Refilled(a), B.Refilled(b), t)
  {
    if a.tape != [] {
      TapeTail(a.tape);
      TapeBeyond(a.tape, t);
      if |a.tape| > 1 { TapeBeyond(a.tape[1..], t); }
      LateEnqueue(a.desk, b.desk, OnTape(a.tape[0]), t);
    }
    if b.tape != [] {
      TapeTail(b.tape);
      TapeBeyond(b.tape, t);
      if |b.tape| > 1 { TapeBeyond(b.tape[1..], t); }
      LateEnqueue(B.Refilled(a).desk, b.desk, OnTape(b.tape[0]), t);
    }
  }

  lemma ShapeParts(a: Desk, b: Desk)
    requires Shape(a) == Shape(b)
    ensures a.core == b.core && a.nextId == b.nextId && a.draws == b.draws && a.now == b.now
    ensures Unnumbered(a.history) == Unnumbered(b.history) && a.history.(calls := []) == b.history.(calls := [])
  {
    var x, y := Shape(a), Shape(b);
    assert x.core == y.core && x.nextId == y.nextId && x.draws == y.draws && x.now == y.now && x.history == y.history;
    assert x.history.(calls := []) == y.history.(calls := []);
  }

  lemma SamePerform(latency: Latency, a: Desk, b: Desk, action: Action, t: Millis)
    requires SameDesk(a, b, t) && Acceptable(action)
    ensures SameDesk(Perform(latency, a, action), Perform(latency, b, action), t)
  {
    hide Enqueue, PlainCalls;
    ShapeParts(a, b);
    var e := ActionEvent(latency, a, action);
    SameEnqueue(a, b, e, t);
    var h, g := a.history.(calls := []), b.history.(calls := []);
    assert a.history == h.(calls := a.history.calls) && b.history == g.(calls := b.history.calls);
  }

  lemma {:induction false} SamePerformAll(latency: Latency, a: Desk, b: Desk, actions: seq<Action>, t: Millis)
    requires SameDesk(a, b, t) && (forall i :: 0 <= i < |actions| ==> Acceptable(actions[i]))
    ensures SameDesk(PerformAll(latency, a, actions), PerformAll(latency, b, actions), t)
  {
    if actions != [] {
      SamePerformAll(latency, a, b, actions[..|actions| - 1], t);
      SamePerform(latency, PerformAll(latency, a, actions[..|actions| - 1]),
                  PerformAll(latency, b, actions[..|actions| - 1]), actions[|actions| - 1], t);
    }
  }

  lemma SameDeliver(category: FeeCategory, a: Desk, b: Desk, e: Timed, t: Millis)
    requires SameDesk(a, b, t)
    ensures SameDesk(Delivered(category, a, e), Delivered(category, b, e), t)
  {
    hide Apply, PlainCalls;
    ShapeParts(a, b);
    var h, g := a.history.(calls := []), b.history.(calls := []);
    assert a.history == h.(calls := a.history.calls) && b.history == g.(calls := b.history.calls);
  }

  lemma SameCall(a: Desk, b: Desk, c: Call, d: Call, t: Millis)
    requires SameDesk(a, b, t) && Plain(c) == Plain(d)
    ensures SameDesk(a.(history := a.history.(calls := a.history.calls + [c])),
                     b.(history := b.history.(calls := b.history.calls + [d])), t)
  {
    ShapeParts(a, b);
    var p, q := a.history.calls, b.history.calls;
    assert PlainCalls(p + [c]) == PlainCalls(p) + [Plain(c)] && PlainCalls(q + [d]) == PlainCalls(q) + [Plain(d)];
    assert Unnumbered(a.history).calls == Unnumbered(b.history).calls;
  }

  lemma SameStep<S(!new)>(setup: B.Setup<S>, a: B.Sim<S>, b: B.Sim<S>, t: Millis)
    requires SameUpTo(a, b, t) && WithinHorizon(a, t)
             && SameToStrategy(setup.strategy, B.HeadNumber(a), B.HeadNumber(b))
    ensures SameUpTo(B.Step(setup, a), B.Step(setup, b), t)
    ensures b.desk.queue != [] && B.ActionsTaken(setup, a) == B.ActionsTaken(setup, b)
  {
    hide SameDesk, Enqueue, NumberIn, NumbersAfter, Apply, PerformAll, Allowed, Shape;
    AppliedSame(setup, a, b, t);
    var x, y := B.Applied(setup, a), B.Applied(setup, b);
    SameView(x.desk, y.desk, t);
    var e, n, m := a.desk.queue[0], B.HeadNumber(a), B.HeadNumber(b);
    var reply := setup.strategy.onEvent(a.state, ViewOf(x.desk), e, n);
    assert setup.strategy.onEvent(b.state, ViewOf(y.desk), e, m) == reply;
    SamePerformAll(setup.latency, x.desk, y.desk, B.ActionsTaken(setup, a), t);
    SameCall(PerformAll(setup.latency, x.desk, Allowed(reply.actions)),
             PerformAll(setup.latency, y.desk, Allowed(reply.actions)),
             Call(e, n, ViewOf(x.desk), reply.actions), Call(e, m, ViewOf(y.desk), reply.actions), t);
  }

  lemma AppliedSame<S>(setup: B.Setup<S>, a: B.Sim<S>, b: B.Sim<S>, t: Millis)
    requires SameUpTo(a, b, t) && WithinHorizon(a, t)
    ensures b.desk.queue != [] && b.desk.queue[0] == a.desk.queue[0]
    ensures SameUpTo(B.Applied(setup, a), B.Applied(setup, b), t)
  {
    hide Shape, Delivered, NumberIn, Enqueue;
    SameHead(a.desk, b.desk, t);
    SameDeliver(setup.category, a.desk.(queue := a.desk.queue[1..]), b.desk.(queue := b.desk.queue[1..]),
                a.desk.queue[0], t);
    SameRefill(a.(desk := DeliverHead(setup.category, a.desk),
                  numbers := if a.numbers == [] then [] else a.numbers[1..]),
               b.(desk := DeliverHead(setup.category, b.desk),
                  numbers := if b.numbers == [] then [] else b.numbers[1..]), t);
  }

  lemma SameView(a: Desk, b: Desk, t: Millis)
    requires SameDesk(a, b, t)
    ensures ViewOf(a) == ViewOf(b)
  {
    ShapeParts(a, b);
  }

  /**
   Step by step, for a strategy that ignores numbers: as long as the first run stays within the
   horizon, the second run is in the same state - same book, accounts, orders, callbacks and strategy
   state - and stays within it too.
   */
  lemma {:induction false} RunsAgree<S(!new)>(setup: B.Setup<S>, book: Book, tape: seq<MarketEvent>,
                                              other: seq<MarketEvent>,
                                              state: S, t: Millis, n: nat)
    requires SortedTape(tape) && SortedTape(other) && TapeUpTo(tape, t) == TapeUpTo(other, t)
             && IgnoresNumbers(setup.strategy)
    requires forall k :: 0 <= k < n ==> WithinHorizon(B.After(setup, B.Start(book, tape, state), k), t)
    ensures var a, b := B.After(setup, B.Start(book, tape, state), n), B.After(setup, B.Start(book, other, state), n);
            && SameUpTo(a, b, t)
            && Unnumbered(a.desk.history) == Unnumbered(b.desk.history) && a.desk.core == b.desk.core
               && a.state == b.state
            && (WithinHorizon(a, t) <==> WithinHorizon(b, t))
  {
    hide SameUpTo, WithinHorizon, B.Step;
    if n == 0 {
      StartsSame(book, tape, other, state, t);
    } else {
      RunsAgree(setup, book, tape, other, state, t, n - 1);
      SameStep(setup, B.After(setup, B.Start(book, tape, state), n - 1),
               B.After(setup, B.Start(book, other, state), n - 1), t);
    }
    SameMeans(B.After(setup, B.Start(book, tape, state), n), B.After(setup, B.Start(book, other, state), n), t);
  }

  lemma StartsSame<S>(book: Book, tape: seq<MarketEvent>, other: seq<MarketEvent>, state: S, t: Millis)
    requires SortedTape(tape) && SortedTape(other) && TapeUpTo(tape, t) == TapeUpTo(other, t)
    ensures SameUpTo(B.Start(book, tape, state), B.Start(book, other, state), t)
  {
    hide SortedTape;
    SameRefill(B.Unprimed(book, tape, state), B.Unprimed(book, other, state), t);
  }

  lemma SameMeans<S>(a: B.Sim<S>, b: B.Sim<S>, t: Millis)
    requires SameUpTo(a, b, t)
    ensures Unnumbered(a.desk.history) == Unnumbered(b.desk.history) && a.desk.core == b.desk.core && a.state == b.state
    ensures WithinHorizon(a, t) <==> WithinHorizon(b, t)
  {
    ShapeParts(a.desk, b.desk);
    if WithinHorizon(a, t) { SameHead(a.desk, b.desk, t); }
    if WithinHorizon(b, t) { SameHead(b.desk, a.desk, t); }
  }

  // ---------- after the horizon ----------

  function CallsUpTo(calls: seq<Call>, t: Millis): seq<Call> {
    if calls == [] then []
    else CallsUpTo(calls[..|calls| - 1], t) + (if calls[|calls| - 1].event.ts <= t then [calls[|calls| - 1]] else [])
  }

  function FillsUpTo(fills: seq<Fill>, t: Millis): seq<Fill> {
    if fills == [] then []
    else FillsUpTo(fills[..|fills| - 1], t) + (if fills[|fills| - 1].timestamp <= t then [fills[|fills| - 1]] else [])
  }

  lemma {:induction false} LateFills(before: seq<Fill>, after: seq<Fill>, t: Millis)
    requires |before| <= |after| && after[..|before|] == before
    requires forall i :: |before| <= i < |after| ==> after[i].timestamp > t
    ensures FillsUpTo(after, t) == FillsUpTo(before, t)
  {
    if |after| > |before| {
      assert after[..|after| - 1][..|before|] == before;
      LateFills(before, after[..|after| - 1], t);
    } else {
      assert after == before;
    }
  }

  /** All that is left to happen is later than `t`. */
  ghost predicate Past<S>(sim: B.Sim<S>, t: Millis) {
    Timely(sim) && !WithinHorizon(sim, t)
  }

  lemma EventFillsAreStamped(category: FeeCategory, core: Core, e: Timed)
    requires e.payload.Market? ==> e.payload.event.ts == e.ts
    ensures var after := Apply(category, core, e).account.fills;
            && |core.account.fills| <= |after| && after[..|core.account.fills|] == core.account.fills
            && (forall i :: |core.account.fills| <= i < |after| ==> after[i].timestamp == e.ts)
  {
    if e.payload.Market? && e.payload.event.LastTrade? {
      var event := e.payload.event;
      var walked := Traded(core.book, event.price, event.size, event.side, event.ts);
      BookedAllFills(core.account, walked.fills, event.price, event.ts, category);
      var after := Apply(category, core, e).account.fills;
      forall i | |core.account.fills| <= i < |after| ensures after[i].timestamp == e.ts {
        var k := i - |core.account.fills|;
        assert after[|core.account.fills| + k] == MakerFill(walked.fills[k], event.price, event.ts, category);
      }
    }
  }

  lemma {:induction false} PerformAllStamped(latency: Latency, d: Desk, actions: seq<Action>)
    requires Stamped(d.queue) && (forall i :: 0 <= i < |actions| ==> Acceptable(actions[i]))
    ensures Stamped(PerformAll(latency, d, actions).queue)
  {
    if actions != [] {
      PerformAllStamped(latency, d, actions[..|actions| - 1]);
      var before, a := PerformAll(latency, d, actions[..|actions| - 1]), actions[|actions| - 1];
      var e := ActionEvent(latency, before, a);
      EnqueuedMembers(before.queue, e);
    }
  }

  lemma StepStamped<S>(setup: B.Setup<S>, sim: B.Sim<S>)
    requires Stamped(sim.desk.queue)
    ensures Stamped(B.Step(setup, sim).desk.queue)
  {
    if !B.Done(sim) {
      var applied := B.Applied(setup, sim);
      if sim.tape != [] { EnqueuedMembers(sim.desk.queue[1..], OnTape(sim.tape[0])); }
      assert Stamped(applied.desk.queue);
      PerformAllStamped(setup.latency, applied.desk,
                        B.ActionsTaken(setup, sim));
    }
  }

  lemma {:induction false} RunStamped<S>(setup: B.Setup<S>, book: Book, tape: seq<MarketEvent>, state: S, n: nat)
    ensures Stamped(B.After(setup, B.Start(book, tape, state), n).desk.queue)
  {
    if n > 0 {
      RunStamped(setup, book, tape, state, n - 1);
      StepStamped(setup, B.After(setup, B.Start(book, tape, state), n - 1));
    }
  }

  lemma StepCalls<S>(setup: B.Setup<S>, sim: B.Sim<S>)
    requires !B.Done(sim)
    ensures var before, after := sim.desk.history.calls, B.Step(setup, sim).desk.history.calls;
            |after| == |before| + 1 && after[..|before|] == before && after[|before|].event == sim.desk.queue[0]
  {
    var applied := B.Applied(setup, sim).desk;
    PerformAllKeepsCore(setup.latency, applied, B.ActionsTaken(setup, sim));
  }

  lemma LateStep<S>(setup: B.Setup<S>, sim: B.Sim<S>, t: Millis)
    requires Past(sim, t) && Causal(setup.latency) && Stamped(sim.desk.queue)
    ensures Past(B.Step(setup, sim), t)
    ensures CallsUpTo(B.Step(setup, sim).desk.history.calls, t) == CallsUpTo(sim.desk.history.calls, t)
    ensures FillsUpTo(B.Step(setup, sim).desk.core.account.fills, t) == FillsUpTo(sim.desk.core.account.fills, t)
  {
    if !B.Done(sim) {
      StepTimely(setup, sim);
      StepIsDelivery(setup, sim);
      StepCalls(setup, sim);
      var e, after := sim.desk.queue[0], B.Step(setup, sim);
      assert e in sim.desk.queue && e.ts > t;
      EventFillsAreStamped(setup.category, sim.desk.core, e);
      LateFills(sim.desk.core.account.fills, after.desk.core.account.fills, t);
      if after.desk.queue != [] { assert after.desk.now <= after.desk.queue[0].ts; }
    }
  }

  lemma {:induction false} LateRun<S>(setup: B.Setup<S>, sim: B.Sim<S>, t: Millis, k: nat)
    requires Past(sim, t) && Causal(setup.latency) && Stamped(sim.desk.queue)
    ensures var late := B.After(setup, sim, k);
            && Past(late, t) && Stamped(late.desk.queue)
            && CallsUpTo(late.desk.history.calls, t) == CallsUpTo(sim.desk.history.calls, t)
            && FillsUpTo(late.desk.core.account.fills, t) == FillsUpTo(sim.desk.core.account.fills, t)
  {
    hide B.Step, Past, Stamped, CallsUpTo, FillsUpTo;
    if k > 0 {
      LateRun(setup, sim, t, k - 1);
      LateStep(setup, B.After(setup, sim, k - 1), t);
      StepStamped(setup, B.After(setup, sim, k - 1));
    }
  }

  lemma LateSteps<S>(setup: B.Setup<S>, book: Book, tape: seq<MarketEvent>, state: S, t: Millis, n: nat, m: nat)
    requires SortedTape(tape) && Causal(setup.latency) && n <= m
    requires !WithinHorizon(B.After(setup, B.Start(book, tape, state), n), t)
    ensures CallsUpTo(DeskAt(setup, book, tape, state, m).history.calls, t)
            == CallsUpTo(DeskAt(setup, book, tape, state, n).history.calls, t)
    ensures FillsUpTo(DeskAt(setup, book, tape, state, m).core.account.fills, t)
            == FillsUpTo(DeskAt(setup, book, tape, state, n).core.account.fills, t)
  {
    hide B.After, B.Step, B.Start;
    RunTimely(setup, book, tape, state, n);
    RunStamped(setup, book, tape, state, n);
    LateRun(setup, B.After(setup, B.Start(book, tape, state), n), t, m - n);
    B.AfterSplits(setup, B.Start(book, tape, state), n, m);
  }

  /** The step at which a run first leaves the horizon. */
  lemma {:induction false} FirstExit<S>(setup: B.Setup<S>, start: B.Sim<S>, t: Millis, n: nat) returns (k: nat)
    requires !WithinHorizon(B.After(setup, start, n), t)
    ensures k <= n && !WithinHorizon(B.After(setup, start, k), t)
    ensures forall i :: 0 <= i < k ==> WithinHorizon(B.After(setup, start, i), t)
  {
    if i: nat :| i < n && !WithinHorizon(B.After(setup, start, i), t) {
      k := FirstExit(setup, start, t, i);
    } else {
      k := n;
    }
  }

  lemma {:induction false} PlainUpTo(calls: seq<Call>, t: Millis)
    ensures PlainCalls(CallsUpTo(calls, t)) == CallsUpTo(PlainCalls(calls), t)
  {
    if calls != [] {
      var init, last := calls[..|calls| - 1], calls[|calls| - 1];
      PlainUpTo(init, t);
      assert PlainCalls(calls)[..|calls| - 1] == PlainCalls(init);
      assert PlainCalls(CallsUpTo(init, t) + [last]) == PlainCalls(CallsUpTo(init, t)) + [Plain(last)];
    }
  }

  /**
   No look-ahead, for whole runs of a strategy that ignores numbers. Whenever both runs are past
   time T, their callbacks up to T - events, what the strategy saw, what it did - and their fills up
   to T are the same.
   */
  lemma DecisionsDependOnThePastOnly<S(!new)>(setup: B.Setup<S>, book: Book, tape: seq<MarketEvent>,
                                              other: seq<MarketEvent>,
                                              state: S, t: Millis, n: nat, m: nat)
    requires SortedTape(tape) && SortedTape(other) && TapeUpTo(tape, t) == TapeUpTo(other, t) && Causal(setup.latency)
    requires IgnoresNumbers(setup.strategy)
    requires !WithinHorizon(B.After(setup, B.Start(book, tape, state), n), t)
    requires !WithinHorizon(B.After(setup, B.Start(book, other, state), m), t)
    ensures PlainCalls(CallsUpTo(DeskAt(setup, book, tape, state, n).history.calls, t))
            == PlainCalls(CallsUpTo(DeskAt(setup, book, other, state, m).history.calls, t))
    ensures FillsUpTo(DeskAt(setup, book, tape, state, n).core.account.fills, t)
            == FillsUpTo(DeskAt(setup, book, other, state, m).core.account.fills, t)
  {
    hide B.Step, B.After, B.Start, WithinHorizon, SameUpTo, CallsUpTo, FillsUpTo, SortedTape, Causal, IgnoresNumbers;
    var k := FirstExit(setup, B.Start(book, tape, state), t, n);
    RunsAgree(setup, book, tape, other, state, t, k);
    PlainUpTo(DeskAt(setup, book, tape, state, k).history.calls, t);
    PlainUpTo(DeskAt(setup, book, other, state, k).history.calls, t);
    LateSteps(setup, book, tape, state, t, k, n);
    if k <= m {
      LateSteps(setup, book, other, state, t, k, m);
    } else {
      RunsAgree(setup, book, tape, other, state, t, m);
    }
  }
}
