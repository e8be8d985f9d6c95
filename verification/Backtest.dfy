/**
 The backtester as a state machine. One step is one iteration of the main loop: pop the
 earliest event, apply it, pull the next market event off the tape, call the strategy.
 */
module Backtest {
  import opened Prelude
  import opened OrderBook
  import opened Fees
  import opened TradingDesk
  import opened DeskInvariant

  datatype Setup<!S> = Setup(category: FeeCategory, latency: Latency, strategy: Strategy<S>)

  /** `numbers` are the sequence numbers of the queued events, `pushes` the next number to give out. */
  datatype Sim<S> = Sim(desk: Desk, tape: seq<MarketEvent>, state: S, raised: bool, numbers: seq<nat>, pushes: nat)

  function Unprimed<S>(book: Book, tape: seq<MarketEvent>, state: S): Sim<S> {
    Sim(Opened(book), tape, state, false, [], 0)
  }

  function Start<S>(book: Book, tape: seq<MarketEvent>, state: S): Sim<S> {
    Refilled(Unprimed(book, tape, state))
  }

  /** The next market event, if there is one, joins the queue. */
  function Refilled<S>(sim: Sim<S>): Sim<S> {
    if sim.tape == [] then sim
    else
      var e := OnTape(sim.tape[0]);
      sim.(desk := sim.desk.(queue := Enqueue(sim.desk.queue, e)), tape := sim.tape[1..],
           numbers := NumberIn(sim.desk.queue, sim.numbers, e.ts, sim.pushes), pushes := sim.pushes + 1)
  }

  /** Nothing left to do, or the strategy raised. */
  predicate Done<S>(sim: Sim<S>) {
    sim.desk.queue == [] || sim.raised
  }

  /** The number of the event at the head of the queue. */
  function HeadNumber<S>(sim: Sim<S>): nat {
    if sim.numbers == [] then 0 else sim.numbers[0]
  }

  function Applied<S>(setup: Setup<S>, sim: Sim<S>): Sim<S>
    requires sim.desk.queue != []
  {
    Refilled(sim.(desk := DeliverHead(setup.category, sim.desk),
                  numbers := if sim.numbers == [] then [] else sim.numbers[1..]))
  }

  function Step<S>(setup: Setup<S>, sim: Sim<S>): Sim<S> {
    if Done(sim) then sim
    else
      var applied := Applied(setup, sim);
      var (desk, state, raised) :=
        Called(setup.strategy, setup.latency, applied.desk, sim.state, sim.desk.queue[0], HeadNumber(sim));
      var actions := ActionsTaken(setup, sim);
      Sim(desk, applied.tape, state, raised,
          NumbersAfter(setup.latency, applied.desk, actions, applied.numbers, applied.pushes),
          applied.pushes + |actions|)
  }

  /** What the callback of the next step gets to do. */
  function ActionsTaken<S>(setup: Setup<S>, sim: Sim<S>): (r: seq<Action>)
    requires sim.desk.queue != []
    ensures forall i :: 0 <= i < |r| ==> Acceptable(r[i])
  {
    Allowed(setup.strategy.onEvent(sim.state, ViewOf(Applied(setup, sim).desk), sim.desk.queue[0],
                                   HeadNumber(sim)).actions)
  }

  function After<S>(setup: Setup<S>, start: Sim<S>, n: nat): Sim<S> {
    if n == 0 then start else Step(setup, After(setup, start, n - 1))
  }

  lemma {:induction false} AfterSplits<S>(setup: Setup<S>, start: Sim<S>, n: nat, m: nat)
    requires n <= m
    ensures After(setup, start, m) == After(setup, After(setup, start, n), m - n)
  {
    hide Step;
    if n < m { AfterSplits(setup, start, n, m - 1); }
  }

  /** What is recorded after a callback, if the series is asked for. */
  datatype PnLSnapshot = PnLSnapshot(timestampMs: Millis, cash: real, inventory: real, markPrice: Option<real>,
                                     pnl: real)

  function SnapshotOf(d: Desk): PnLSnapshot {
    PnLSnapshot(d.now, d.core.account.cash, d.core.account.inventory, d.core.account.lastMid, MarkToMid(d.core.account))
  }

  /** One snapshot for each of the first `n` iterations, except one in which the strategy raises. */
  function PnLSeries<S>(setup: Setup<S>, start: Sim<S>, n: nat): seq<PnLSnapshot> {
    if n == 0 then []
    else
      var before, after := After(setup, start, n - 1), After(setup, start, n);
      PnLSeries(setup, start, n - 1) + (if Done(before) || after.raised then [] else [SnapshotOf(after.desk)])
  }

  /** The series of a run that never raised: the i-th snapshot is of the state after i+1 iterations. */
  lemma {:induction false} SeriesFollowsRun<S>(setup: Setup<S>, start: Sim<S>, n: nat)
    requires (forall k :: 0 <= k < n ==> !Done(After(setup, start, k))) && !After(setup, start, n).raised
    ensures |PnLSeries(setup, start, n)| == n
    ensures forall i :: 0 <= i < n ==> PnLSeries(setup, start, n)[i] == SnapshotOf(After(setup, start, i + 1).desk)
    ensures n > 0 ==> PnLSeries(setup, start, n)[n - 1].pnl == MarkToMid(After(setup, start, n).desk.core.account)
  {
    hide Step, SnapshotOf;
    if n > 0 {
      assert !Done(After(setup, start, n - 1));
      SeriesFollowsRun(setup, start, n - 1);
      SnapshotMarks(After(setup, start, n).desk);
    }
  }

  lemma SnapshotMarks(d: Desk)
    ensures SnapshotOf(d).pnl == MarkToMid(d.core.account)
  {
  }

  /** The result the backtester reports when a run is over. */
  datatype SimulationResult = SimulationResult(pnl: real, nFills: nat, nMakerFills: nat, nTakerFills: nat,
                                               finalInventory: real, cash: real, feesPaid: real, rebatesReceived: real,
                                               fills: seq<Fill>, pnlSeries: seq<PnLSnapshot>)

  function MakerCount(fills: seq<Fill>): (n: nat)
    ensures n <= |fills|
  {
    if fills == [] then 0
    else MakerCount(fills[..|fills| - 1]) + (if fills[|fills| - 1].isMaker then 1 else 0)
  }

  function ResultOf(account: Account, series: seq<PnLSnapshot>): SimulationResult {
    SimulationResult(MarkToMid(account), |account.fills|, MakerCount(account.fills),
                     |account.fills| - MakerCount(account.fills), account.inventory, account.cash,
                     account.feesPaid, account.rebatesReceived, account.fills,
                     series)
  }
}
