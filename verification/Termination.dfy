/** How long a backtest can run: each market event pays for the arrivals it can cause. */
module Termination {
  import opened OrderBook
  import opened TradingDesk
  import opened DeskInvariant
  import opened Quoting
  import B = Backtest

  /** The strategy takes at most `limit` actions per market event and none on arrivals. */
  ghost predicate Bounded<S(!new)>(strategy: Strategy<S>, limit: nat) {
    forall state: S, view: View, e: Timed, n: nat ::
      |strategy.onEvent(state, view, e, n).actions| <= if e.payload.Market? then limit else 0
  }

  function Weight(queue: seq<Timed>, limit: nat): nat {
    if queue == [] then 0
    else (if queue[0].payload.Market? then limit + 1 else 1) + Weight(queue[1..], limit)
  }

  function WorkLeft<S>(sim: B.Sim<S>, limit: nat): nat {
    Weight(sim.desk.queue, limit) + (limit + 1) * |sim.tape|
  }

  lemma {:induction false} WeightEnqueue(queue: seq<Timed>, e: Timed, limit: nat)
    ensures Weight(Enqueue(queue, e), limit) == Weight(queue, limit) + (if e.payload.Market? then limit + 1 else 1)
  {
    if queue == [] || e.ts < queue[0].ts {
      assert ([e] + queue)[1..] == queue;
    } else {
      WeightEnqueue(queue[1..], e, limit);
      assert ([queue[0]] + Enqueue(queue[1..], e))[1..] == Enqueue(queue[1..], e);
    }
  }

  lemma {:induction false} WeightPerformAll(latency: Latency, d: Desk, actions: seq<Action>, limit: nat)
    requires forall i :: 0 <= i < |actions| ==> Acceptable(actions[i])
    ensures Weight(PerformAll(latency, d, actions).queue, limit) == Weight(d.queue, limit) + |actions|
  {
    if actions != [] {
      var before, a := PerformAll(latency, d, actions[..|actions| - 1]), actions[|actions| - 1];
      WeightPerformAll(latency, d, actions[..|actions| - 1], limit);
      var e := ActionEvent(latency, before, a);
      WeightEnqueue(before.queue, e, limit);
    }
  }

  lemma RefillKeepsWork<S>(sim: B.Sim<S>, limit: nat)
    ensures WorkLeft(B.Refilled(sim), limit) == WorkLeft(sim, limit)
  {
    if sim.tape != [] {
      WeightEnqueue(sim.desk.queue, OnTape(sim.tape[0]), limit);
      assert (limit + 1) * |sim.tape| == (limit + 1) * |sim.tape[1..]| + (limit + 1);
    }
  }

  /** Every iteration uses up work. */
  lemma StepUsesWork<S(!new)>(setup: B.Setup<S>, sim: B.Sim<S>, limit: nat)
    requires Bounded(setup.strategy, limit) && !B.Done(sim)
    ensures WorkLeft(B.Step(setup, sim), limit) < WorkLeft(sim, limit)
  {
    var e, applied := sim.desk.queue[0], B.Applied(setup, sim);
    RefillKeepsWork(sim.(desk := DeliverHead(setup.category, sim.desk)), limit);
    WeightPerformAll(setup.latency, applied.desk, B.ActionsTaken(setup, sim), limit);
    assert |setup.strategy.onEvent(sim.state, ViewOf(applied.desk), e, B.HeadNumber(sim)).actions|
           <= if e.payload.Market? then limit else 0;
  }

  lemma {:induction false} DoneOnceWorkIsUsed<S(!new)>(setup: B.Setup<S>, sim: B.Sim<S>, limit: nat, n: nat)
    requires Bounded(setup.strategy, limit)
    ensures B.Done(B.After(setup, sim, n)) || WorkLeft(B.After(setup, sim, n), limit) + n <= WorkLeft(sim, limit)
  {
    hide B.Step;
    if n > 0 {
      DoneOnceWorkIsUsed(setup, sim, limit, n - 1);
      var before := B.After(setup, sim, n - 1);
      if B.Done(before) {
        DoneStays(setup, before);
      } else {
        StepUsesWork(setup, before, limit);
      }
    }
  }

  lemma DoneStays<S>(setup: B.Setup<S>, sim: B.Sim<S>)
    requires B.Done(sim)
    ensures B.Step(setup, sim) == sim
  {
  }

  /** A strategy bounded by `limit` makes at most (limit + 1) iterations per market event. */
  lemma BoundedRunEnds<S(!new)>(setup: B.Setup<S>, book: Book, tape: seq<MarketEvent>, state: S, limit: nat)
    requires Bounded(setup.strategy, limit)
    ensures B.Done(B.After(setup, B.Start(book, tape, state), (limit + 1) * |tape|))
  {
    hide B.Step, B.After;
    var start := B.Start(book, tape, state);
    StartWork(book, tape, state, limit);
    DoneOnceWorkIsUsed(setup, start, limit, (limit + 1) * |tape|);
  }

  lemma StartWork<S>(book: Book, tape: seq<MarketEvent>, state: S, limit: nat)
    ensures WorkLeft(B.Start(book, tape, state), limit) == (limit + 1) * |tape|
  {
    RefillKeepsWork(B.Unprimed(book, tape, state), limit);
  }

  /** A quoting strategy with the default kinds finishes an N-event tape within 5N iterations. */
  lemma QuotingRunEnds<I(!new)>(setup: B.Setup<QuoteState<I>>, quoter: Quoter<I>, book: Book, tape: seq<MarketEvent>,
                                inner: I)
    requires setup.strategy == AsStrategy(quoter) && quoter.requoteKinds <= DEFAULT_KINDS
    ensures B.Done(B.After(setup, B.Start(book, tape, Initial(inner)), 5 * |tape|))
  {
    hide B.Step, B.After;
    forall state: QuoteState<I>, view: View, e: Timed, n: nat
      ensures |setup.strategy.onEvent(state, view, e, n).actions| <= if e.payload.Market? then 4 else 0
    {
      QuoterIsWellBehaved(quoter, state, view, e);
    }
    BoundedRunEnds(setup, book, tape, Initial(inner), 4);
  }
}
