/**
 Sequence numbers and look-ahead. The engine pulls the next market event off the tape before it
 calls the strategy, so the number of an arrival also counts events the strategy must not know of.
 Two tapes that agree up to a time show the same numbers up to that time as long as both or neither
 run dry; and for any two such tapes of different length there is a strategy that tells them apart.
 */
module SequenceNumbers {
  import opened OrderBook
  import opened Fees
  import opened TradingDesk
  import opened DeskInvariant
  import opened EventOrder
  import opened BacktestRuns
  import opened NoLookAhead
  import B = Backtest

  // ---------- the numbers of the events up to a time ----------

  function NumbersUpTo(queue: seq<Timed>, numbers: seq<nat>, t: Millis): seq<nat> {
    if queue == [] || numbers == [] then []
    else (if queue[0].ts <= t then [numbers[0]] else []) + NumbersUpTo(queue[1..], numbers[1..], t)
  }

  lemma {:induction false} NumbersUpToLength(queue: seq<Timed>, numbers: seq<nat>, t: Millis)
    requires |numbers| == |queue|
    ensures |NumbersUpTo(queue, numbers, t)| == |UpTo(queue, t)|
  {
    if queue != [] { NumbersUpToLength(queue[1..], numbers[1..], t); }
  }

  lemma {:induction false} NoNumbersUpTo(queue: seq<Timed>, numbers: seq<nat>, t: Millis)
    requires |numbers| == |queue| && forall i :: 0 <= i < |queue| ==> t < queue[i].ts
    ensures NumbersUpTo(queue, numbers, t) == [] && UpTo(queue, t) == []
  {
    if queue != [] { NoNumbersUpTo(queue[1..], numbers[1..], t); }
  }

  lemma {:induction false} NumberInUpTo(queue: seq<Timed>, numbers: seq<nat>, e: Timed, n: nat, t: Millis)
    requires Sorted(queue) && |numbers| == |queue|
    ensures NumbersUpTo(Enqueue(queue, e), NumberIn(queue, numbers, e.ts, n), t)
            == if e.ts <= t then NumberIn(UpTo(queue, t), NumbersUpTo(queue, numbers, t), e.ts, n)
               else NumbersUpTo(queue, numbers, t)
  {
    if queue == [] {
    } else if e.ts < queue[0].ts {
      assert ([e] + queue)[1..] == queue && ([n] + numbers)[1..] == numbers;
      if queue[0].ts > t {
        forall i | 0 <= i < |queue| ensures t < queue[i].ts { HeadIsEarliest(queue, i); }
        NoNumbersUpTo(queue, numbers, t);
      }
    } else {
      var rest, tail := Enqueue(queue[1..], e), NumberIn(queue[1..], numbers[1..], e.ts, n);
      NumberInUpTo(queue[1..], numbers[1..], e, n, t);
      NumbersUpToLength(queue[1..], numbers[1..], t);
      assert ([queue[0]] + rest)[1..] == rest && ([numbers[0]] + tail)[1..] == tail;
      if queue[0].ts <= t {
        var u, v := UpTo(queue[1..], t), NumbersUpTo(queue[1..], numbers[1..], t);
        assert ([queue[0]] + u)[1..] == u && ([numbers[0]] + v)[1..] == v;
      }
    }
  }

  ghost function Near<S>(sim: B.Sim<S>, t: Millis): seq<nat> {
    NumbersUpTo(sim.desk.queue, sim.numbers, t)
  }

  /** Callbacks so far, numbers given out and numbers on the queue up to `t` are the same. */
  ghost predicate SameNumbers<S>(a: B.Sim<S>, b: B.Sim<S>, t: Millis) {
    && |a.numbers| == |a.desk.queue| && |b.numbers| == |b.desk.queue|
    && a.pushes == b.pushes && Near(a, t) == Near(b, t) && a.desk.history == b.desk.history
  }

  lemma HeadIsNear<S>(sim: B.Sim<S>, t: Millis)
    requires |sim.numbers| == |sim.desk.queue| && WithinHorizon(sim, t)
    ensures Near(sim, t) == [B.HeadNumber(sim)] + NumbersUpTo(sim.desk.queue[1..], sim.numbers[1..], t)
  {
  }

  // ---------- one step on two tapes ----------

  /** The desk and the numbers once the head is delivered, before the tape is asked. */
  function Popped<S>(setup: B.Setup<S>, sim: B.Sim<S>): B.Sim<S>
    requires sim.desk.queue != []
  {
    sim.(desk := DeliverHead(setup.category, sim.desk), numbers := if sim.numbers == [] then [] else sim.numbers[1..])
  }

  /** A refill later than `t` moves nothing up to `t`; one not later is the same on both tapes. */
  lemma RefillNear<S>(sim: B.Sim<S>, t: Millis)
    requires Sorted(sim.desk.queue) && |sim.numbers| == |sim.desk.queue|
    ensures var after := B.Refilled(sim);
            && |after.numbers| == |after.desk.queue|
            && after.pushes == sim.pushes + (if sim.tape == [] then 0 else 1)
            && Near(after, t) == if sim.tape != [] && sim.tape[0].ts <= t
                                 then NumberIn(UpTo(sim.desk.queue, t), Near(sim, t), sim.tape[0].ts, sim.pushes)
                                 else Near(sim, t)
  {
    if sim.tape != [] {
      var e := OnTape(sim.tape[0]);
      NumberInUpTo(sim.desk.queue, sim.numbers, e, sim.pushes, t);
      EnqueuedMembers(sim.desk.queue, e);
    }
  }

  lemma RefillKeepsNumbers<S>(a: B.Sim<S>, b: B.Sim<S>, t: Millis)
    requires SameUpTo(a, b, t) && SameNumbers(a, b, t) && (a.tape == [] <==> b.tape == [])
    ensures SameNumbers(B.Refilled(a), B.Refilled(b), t)
  {
    hide Enqueue, NumberIn, NumbersUpTo, Shape;
    RefillNear(a, t);
    RefillNear(b, t);
    TapesUpTo(a.tape, b.tape, t);
  }

  lemma TapesUpTo(tape: seq<MarketEvent>, other: seq<MarketEvent>, t: Millis)
    requires SortedTape(tape) && SortedTape(other) && TapeUpTo(tape, t) == TapeUpTo(other, t)
    ensures tape != [] && tape[0].ts <= t ==> other != [] && other[0] == tape[0]
    ensures other != [] && other[0].ts <= t ==> tape != [] && other[0] == tape[0]
  {
    if tape != [] && tape[0].ts <= t {
      assert TapeUpTo(tape, t)[0] == tape[0];
      if other != [] && other[0].ts > t { TapeBeyond(other, t); }
    }
    if other != [] && other[0].ts <= t {
      assert TapeUpTo(other, t)[0] == other[0];
      if tape != [] && tape[0].ts > t { TapeBeyond(tape, t); }
    }
  }

  lemma {:induction false} ActionsKeepNumbers(latency: Latency, a: Desk, b: Desk, actions: seq<Action>,
                                              na: seq<nat>, nb: seq<nat>, p: nat, t: Millis)
    requires SameDesk(a, b, t) && |na| == |a.queue| && |nb| == |b.queue|
    requires NumbersUpTo(a.queue, na, t) == NumbersUpTo(b.queue, nb, t)
    requires forall i :: 0 <= i < |actions| ==> Acceptable(actions[i])
    ensures var x, y := PerformAll(latency, a, actions), PerformAll(latency, b, actions);
            var nx, ny := NumbersAfter(latency, a, actions, na, p), NumbersAfter(latency, b, actions, nb, p);
            |nx| == |x.queue| && |ny| == |y.queue| && NumbersUpTo(x.queue, nx, t) == NumbersUpTo(y.queue, ny, t)
  {
    hide Enqueue, NumberIn, NumbersUpTo, Shape;
    if actions != [] {
      var init, last := actions[..|actions| - 1], actions[|actions| - 1];
      ActionsKeepNumbers(latency, a, b, init, na, nb, p, t);
      SamePerformAll(latency, a, b, init, t);
      var x, y := PerformAll(latency, a, init), PerformAll(latency, b, init);
      ShapeParts(x, y);
      var e := ActionEvent(latency, x, last);
      ActionPushes(latency, x, last);
      ActionPushes(latency, y, last);
      NumberInUpTo(x.queue, NumbersAfter(latency, a, init, na, p), e, p + |init|, t);
      NumberInUpTo(y.queue, NumbersAfter(latency, b, init, nb, p), e, p + |init|, t);
    }
  }

  lemma ActionPushes(latency: Latency, d: Desk, a: Action)
    requires Acceptable(a)
    ensures Perform(latency, d, a).queue == Enqueue(d.queue, ActionEvent(latency, d, a))
    ensures |Perform(latency, d, a).queue| == |d.queue| + 1
  {
    EnqueuedMembers(d.queue, ActionEvent(latency, d, a));
  }

  lemma PoppedSame<S>(setup: B.Setup<S>, a: B.Sim<S>, b: B.Sim<S>, t: Millis)
    requires SameUpTo(a, b, t) && WithinHorizon(a, t) && |a.numbers| == |a.desk.queue| && |b.numbers| == |b.desk.queue|
    ensures WithinHorizon(b, t) && SameUpTo(Popped(setup, a), Popped(setup, b), t)
    ensures Near(a, t) == [B.HeadNumber(a)] + Near(Popped(setup, a), t)
    ensures Near(b, t) == [B.HeadNumber(b)] + Near(Popped(setup, b), t)
  {
    hide Shape, NumbersUpTo, Apply, Noted;
    SameHead(a.desk, b.desk, t);
    SameDeliver(setup.category, a.desk.(queue := a.desk.queue[1..]), b.desk.(queue := b.desk.queue[1..]),
                a.desk.queue[0], t);
    HeadIsNear(a, t);
    HeadIsNear(b, t);
  }

  /** Same numbers stay same over a step as long as the tapes last equally. */
  lemma StepKeepsNumbers<S(!new)>(setup: B.Setup<S>, a: B.Sim<S>, b: B.Sim<S>, t: Millis)
    requires SameUpTo(a, b, t) && SameNumbers(a, b, t) && WithinHorizon(a, t) && (a.tape == [] <==> b.tape == [])
    ensures B.HeadNumber(a) == B.HeadNumber(b)
    ensures SameUpTo(B.Step(setup, a), B.Step(setup, b), t) && SameNumbers(B.Step(setup, a), B.Step(setup, b), t)
  {
    hide Shape, Enqueue, NumberIn, NumbersUpTo, NumbersAfter, PerformAll, Apply, Allowed;
    PoppedSame(setup, a, b, t);
    assert Near(a, t)[0] == B.HeadNumber(a) && Near(b, t)[0] == B.HeadNumber(b);
    assert Near(a, t)[1..] == Near(Popped(setup, a), t) && Near(b, t)[1..] == Near(Popped(setup, b), t);
    SameStep(setup, a, b, t);
    AppliedSame(setup, a, b, t);
    HistoriesPop(setup, a, b, t);
    RefillKeepsNumbers(Popped(setup, a), Popped(setup, b), t);
    var x, y := B.Applied(setup, a), B.Applied(setup, b);
    ActionsKeepNumbers(setup.latency, x.desk, y.desk, B.ActionsTaken(setup, a), x.numbers, y.numbers, x.pushes, t);
    StepHistories(setup, a, b, t);
  }

  lemma HistoriesPop<S>(setup: B.Setup<S>, a: B.Sim<S>, b: B.Sim<S>, t: Millis)
    requires SameUpTo(a, b, t) && a.desk.history == b.desk.history && a.desk.queue != [] && b.desk.queue != []
    requires a.desk.queue[0] == b.desk.queue[0]
    ensures Popped(setup, a).desk.history == Popped(setup, b).desk.history
  {
    hide Apply;
    ShapeParts(a.desk, b.desk);
  }

  lemma StepHistories<S(!new)>(setup: B.Setup<S>, a: B.Sim<S>, b: B.Sim<S>, t: Millis)
    requires SameUpTo(a, b, t) && WithinHorizon(a, t) && WithinHorizon(b, t) && B.HeadNumber(a) == B.HeadNumber(b)
    requires Popped(setup, a).desk.history == Popped(setup, b).desk.history
    ensures B.Step(setup, a).desk.history == B.Step(setup, b).desk.history
  {
    hide Shape, Enqueue, NumberIn, NumbersAfter, Apply, Allowed;
    AppliedSame(setup, a, b, t);
    var x, y := B.Applied(setup, a).desk, B.Applied(setup, b).desk;
    SameView(x, y, t);
    ShapeParts(x, y);
    assert x.history == y.history;
    ActionsHistory(setup.latency, x, y, B.ActionsTaken(setup, a));
  }

  lemma {:induction false} ActionsHistory(latency: Latency, a: Desk, b: Desk, actions: seq<Action>)
    requires a.history == b.history && a.nextId == b.nextId
    requires forall i :: 0 <= i < |actions| ==> Acceptable(actions[i])
    ensures PerformAll(latency, a, actions).history == PerformAll(latency, b, actions).history
    ensures PerformAll(latency, a, actions).nextId == PerformAll(latency, b, actions).nextId
  {
    if actions != [] { ActionsHistory(latency, a, b, actions[..|actions| - 1]); }
  }

  // ---------- whole runs on tapes that last equally ----------

  function Left(length: nat, steps: nat): nat {
    if length <= steps + 1 then 0 else length - 1 - steps
  }

  /** One market event goes in front, and one more at every step. */
  lemma {:induction false} TapeLeft<S>(setup: B.Setup<S>, book: Book, tape: seq<MarketEvent>, state: S, n: nat)
    requires forall k :: 0 <= k < n ==> !B.Done(B.After(setup, B.Start(book, tape, state), k))
    ensures |B.After(setup, B.Start(book, tape, state), n).tape| == Left(|tape|, n)
  {
    hide B.Step, B.Start, B.Done;
    if n == 0 {
      StartLeft(book, tape, state);
    } else {
      TapeLeft(setup, book, tape, state, n - 1);
      TapeShrinks(setup, B.After(setup, B.Start(book, tape, state), n - 1));
    }
  }

  lemma StartLeft<S>(book: Book, tape: seq<MarketEvent>, state: S)
    ensures |B.Start(book, tape, state).tape| == Left(|tape|, 0)
  {
  }

  lemma TapeShrinks<S>(setup: B.Setup<S>, sim: B.Sim<S>)
    requires !B.Done(sim)
    ensures B.Step(setup, sim).tape == if sim.tape == [] then [] else sim.tape[1..]
  {
    hide Enqueue, NumberIn, NumbersAfter, Delivered, Called;
  }

  lemma StartsNumbered<S>(book: Book, tape: seq<MarketEvent>, other: seq<MarketEvent>, state: S, t: Millis)
    requires SortedTape(tape) && SortedTape(other) && TapeUpTo(tape, t) == TapeUpTo(other, t)
             && (tape == [] <==> other == [])
    ensures SameNumbers(B.Start(book, tape, state), B.Start(book, other, state), t)
  {
    RefillKeepsNumbers(B.Unprimed(book, tape, state), B.Unprimed(book, other, state), t);
  }

  /**
   Any strategy, whatever it does with numbers: if the tapes have the same length, or neither runs
   out in the steps taken, the runs are the same within the horizon - numbers included.
   */
  lemma {:induction false} NumberedRunsAgree<S(!new)>(setup: B.Setup<S>, book: Book, tape: seq<MarketEvent>,
                                                      other: seq<MarketEvent>, state: S, t: Millis, n: nat)
    requires SortedTape(tape) && SortedTape(other) && TapeUpTo(tape, t) == TapeUpTo(other, t)
    requires |tape| == |other| || (|tape| > n && |other| > n)
    requires forall k :: 0 <= k < n ==> WithinHorizon(B.After(setup, B.Start(book, tape, state), k), t)
    ensures forall k :: 0 <= k < n ==> WithinHorizon(B.After(setup, B.Start(book, other, state), k), t)
    ensures var a, b := B.After(setup, B.Start(book, tape, state), n), B.After(setup, B.Start(book, other, state), n);
            && SameUpTo(a, b, t) && SameNumbers(a, b, t)
            && a.desk.history == b.desk.history && a.desk.core == b.desk.core && a.state == b.state
            && (WithinHorizon(a, t) <==> WithinHorizon(b, t))
  {
    hide SameUpTo, SameNumbers, WithinHorizon, B.Step, B.Start;
    if n == 0 {
      StartsSame(book, tape, other, state, t);
      StartsNumbered(book, tape, other, state, t);
    } else {
      NumberedRunsAgree(setup, book, tape, other, state, t, n - 1);
      var a, b := B.After(setup, B.Start(book, tape, state), n - 1), B.After(setup, B.Start(book, other, state), n - 1);
      TapesLastEqually(setup, book, tape, other, state, t, n - 1);
      StepKeepsNumbers(setup, a, b, t);
    }
    SameMeans(B.After(setup, B.Start(book, tape, state), n), B.After(setup, B.Start(book, other, state), n), t);
    HistoriesOf(B.After(setup, B.Start(book, tape, state), n), B.After(setup, B.Start(book, other, state), n), t);
  }

  lemma HistoriesOf<S>(a: B.Sim<S>, b: B.Sim<S>, t: Millis)
    requires SameNumbers(a, b, t)
    ensures a.desk.history == b.desk.history
  {
  }

  lemma HorizonIsNotDone<S>(sim: B.Sim<S>, t: Millis)
    requires WithinHorizon(sim, t)
    ensures !B.Done(sim)
  {
  }

  lemma TapesLastEqually<S>(setup: B.Setup<S>, book: Book, tape: seq<MarketEvent>, other: seq<MarketEvent>,
                            state: S, t: Millis, n: nat)
    requires |tape| == |other| || (|tape| > n + 1 && |other| > n + 1)
    requires forall k :: 0 <= k < n ==> WithinHorizon(B.After(setup, B.Start(book, tape, state), k), t)
    requires forall k :: 0 <= k < n ==> WithinHorizon(B.After(setup, B.Start(book, other, state), k), t)
    ensures B.After(setup, B.Start(book, tape, state), n).tape == []
            <==> B.After(setup, B.Start(book, other, state), n).tape == []
  {
    hide WithinHorizon, B.Step, B.Start, B.Done, B.After;
    forall k | 0 <= k < n
      ensures !B.Done(B.After(setup, B.Start(book, tape, state), k))
              && !B.Done(B.After(setup, B.Start(book, other, state), k))
    {
      HorizonIsNotDone(B.After(setup, B.Start(book, tape, state), k), t);
      HorizonIsNotDone(B.After(setup, B.Start(book, other, state), k), t);
    }
    TapeLeft(setup, book, tape, state, n);
    TapeLeft(setup, book, other, state, n);
  }

  /**
   No look-ahead for every strategy, on tapes of the same length or longer than the runs: whenever
   both runs are past time T, callbacks up to T - events, numbers, views, actions - and fills up to T
   are the same.
   */
  lemma NumberedDecisionsDependOnThePastOnly<S(!new)>(setup: B.Setup<S>, book: Book, tape: seq<MarketEvent>,
                                                      other: seq<MarketEvent>, state: S, t: Millis, n: nat, m: nat)
    requires SortedTape(tape) && SortedTape(other) && TapeUpTo(tape, t) == TapeUpTo(other, t) && Causal(setup.latency)
    requires |tape| == |other| || (|tape| > n && |other| > n)
    requires !WithinHorizon(B.After(setup, B.Start(book, tape, state), n), t)
    requires !WithinHorizon(B.After(setup, B.Start(book, other, state), m), t)
    ensures CallsUpTo(DeskAt(setup, book, tape, state, n).history.calls, t)
            == CallsUpTo(DeskAt(setup, book, other, state, m).history.calls, t)
    ensures FillsUpTo(DeskAt(setup, book, tape, state, n).core.account.fills, t)
            == FillsUpTo(DeskAt(setup, book, other, state, m).core.account.fills, t)
  {
    hide B.Step, B.After, B.Start, WithinHorizon, SameUpTo, SameNumbers, CallsUpTo, FillsUpTo, SortedTape, Causal;
    var k := FirstExit(setup, B.Start(book, tape, state), t, n);
    NumberedRunsAgree(setup, book, tape, other, state, t, k);
    LateSteps(setup, book, tape, state, t, k, n);
    assert k <= m;
    LateSteps(setup, book, other, state, t, k, m);
  }

  // ---------- tapes of different length show ----------

  /** Whatever happens, places one bid; its size says whether the event's number was even. */
  function ReadNumber(state: (), view: View, e: Timed, n: nat): Reply<()> {
    Reply((), [PlaceOrder(Bid, 1.0, if n % 2 == 0 then 1.0 else 2.0, true)])
  }

  function Reader(delay: nat := 0): B.Setup<()> {
    B.Setup(Geopolitics, (n: nat, now: Millis) => now + delay,
            Strategy((s: (), v: View, e: Timed, n: nat) => ReadNumber(s, v, e, n)))
  }

  /** An event goes in behind all that are not later, and its number with it. */
  lemma {:induction false} EnqueuedBehind(queue: seq<Timed>, numbers: seq<nat>, e: Timed, n: nat)
    requires Sorted(queue) && |numbers| == |queue|
    ensures var i := |UpTo(queue, e.ts)|;
            var after, given := Enqueue(queue, e), NumberIn(queue, numbers, e.ts, n);
            i < |after| == |given| && after[i] == e && given[i] == n
  {
    if queue == [] {
    } else if e.ts < queue[0].ts {
      forall i | 0 <= i < |queue| ensures e.ts < queue[i].ts { HeadIsEarliest(queue, i); }
      UpToIsEmpty(queue, e.ts);
      EnqueuedMembers(queue, e);
    } else {
      EnqueuedBehind(queue[1..], numbers[1..], e, n);
      EnqueuedMembers(queue, e);
    }
  }

  /** What is not later than a newcomer keeps its place and its number. */
  lemma {:induction false} EnqueueKeepsPlace(queue: seq<Timed>, numbers: seq<nat>, e: Timed, n: nat, i: nat)
    requires Sorted(queue) && |numbers| == |queue| && i < |queue| && queue[i].ts <= e.ts
    ensures var after, given := Enqueue(queue, e), NumberIn(queue, numbers, e.ts, n);
            |after| == |given| == |queue| + 1 && after[i] == queue[i] && given[i] == numbers[i]
  {
    EnqueuedMembers(queue, e);
    HeadIsEarliest(queue, i);
    if i > 0 {
      EnqueueKeepsPlace(queue[1..], numbers[1..], e, n, i - 1);
    }
  }

  ghost predicate Numbered<S>(sim: B.Sim<S>) {
    Timely(sim) && |sim.numbers| == |sim.desk.queue|
  }

  lemma AppliedKeepsPlace<S>(setup: B.Setup<S>, sim: B.Sim<S>, i: nat)
    requires Numbered(sim) && i + 1 < |sim.desk.queue| && sim.desk.queue[i + 1].ts == sim.desk.queue[0].ts
    ensures var x := B.Applied(setup, sim);
            && Numbered(x) && i < |x.desk.queue|
            && x.desk.queue[i] == sim.desk.queue[i + 1] && x.numbers[i] == sim.numbers[i + 1]
  {
    hide Apply, Noted;
    AppliedTimely(setup, sim);
    if sim.tape != [] {
      var j :| 0 <= j < |sim.desk.queue| && sim.desk.queue[j].ts <= sim.tape[0].ts;
      HeadIsEarliest(sim.desk.queue, j);
      EnqueueKeepsPlace(sim.desk.queue[1..], sim.numbers[1..], OnTape(sim.tape[0]), sim.pushes, i);
    }
  }

  lemma {:induction false} ActionsKeepPlace(latency: Latency, d: Desk, actions: seq<Action>, numbers: seq<nat>, p: nat,
                                            i: nat)
    requires Causal(latency) && (forall k :: 0 <= k < |actions| ==> Acceptable(actions[k]))
    requires Sorted(d.queue) && |numbers| == |d.queue| && NotBefore(d.queue, d.now)
             && (i < |d.queue| ==> d.queue[i].ts <= d.now)
    ensures var after, given := PerformAll(latency, d, actions), NumbersAfter(latency, d, actions, numbers, p);
            && Sorted(after.queue) && |given| == |after.queue| == |d.queue| + |actions| && after.now == d.now
            && (i < |d.queue| ==> after.queue[i] == d.queue[i] && given[i] == numbers[i])
  {
    if actions != [] {
      var init, last := actions[..|actions| - 1], actions[|actions| - 1];
      ActionsKeepPlace(latency, d, init, numbers, p, i);
      var before := PerformAll(latency, d, init);
      var given, e := NumbersAfter(latency, d, init, numbers, p), ActionEvent(latency, before, last);
      ActionPushes(latency, before, last);
      EnqueueSorted(before.queue, e);
      EnqueuedMembers(before.queue, e);
      if i < |d.queue| {
        EnqueueKeepsPlace(before.queue, given, e, p + |init|, i);
      } else {
        NumberInLength(before.queue, given, e.ts, p + |init|);
      }
    }
  }

  lemma NumberInLength(queue: seq<Timed>, numbers: seq<nat>, ts: Millis, n: nat)
    requires |numbers| == |queue|
    ensures |NumberIn(queue, numbers, ts, n)| == |queue| + 1
  {
  }

  /** Events of one time are served in the order they are on the queue, whatever the step adds. */
  lemma StepKeepsPlace<S>(setup: B.Setup<S>, sim: B.Sim<S>, i: nat)
    requires Numbered(sim) && Causal(setup.latency) && !B.Done(sim)
    requires i + 1 < |sim.desk.queue| && sim.desk.queue[i + 1].ts == sim.desk.queue[0].ts
    ensures var after := B.Step(setup, sim);
            && Numbered(after) && i < |after.desk.queue|
            && after.desk.queue[i] == sim.desk.queue[i + 1] && after.numbers[i] == sim.numbers[i + 1]
  {
    hide NumbersAfter, PerformAll, NumberIn, Enqueue, Allowed;
    AppliedKeepsPlace(setup, sim, i);
    StepTimely(setup, sim);
    AppliedTimely(setup, sim);
    var x := B.Applied(setup, sim);
    ActionsKeepPlace(setup.latency, x.desk, B.ActionsTaken(setup, sim), x.numbers, x.pushes, i);
  }

  /** The clock has stopped at `t0`: something of that time is next on the queue. */
  ghost predicate StillAt(sim: B.Sim<()>, t0: Millis) {
    Numbered(sim) && !sim.raised && sim.desk.queue != [] && sim.desk.queue[0].ts == t0
  }

  function Bet(n: nat): Action {
    PlaceOrder(Bid, 1.0, if n % 2 == 0 then 1.0 else 2.0, true)
  }

  lemma ReaderActs(sim: B.Sim<()>, delay: nat := 0)
    requires !B.Done(sim)
    ensures B.ActionsTaken(Reader(delay), sim) == [Bet(B.HeadNumber(sim))]
    ensures var x, after := B.Applied(Reader(delay), sim), B.Step(Reader(delay), sim);
            var e := ActionEvent(Reader(delay).latency, x.desk, Bet(B.HeadNumber(sim)));
            && e.ts == x.desk.now + delay && !after.raised
            && after.desk.queue == Enqueue(x.desk.queue, e)
            && after.numbers == NumberIn(x.desk.queue, x.numbers, e.ts, x.pushes)
  {
    hide Delivered, Enqueue, NumberIn;
    var x, a := B.Applied(Reader(delay), sim), Bet(B.HeadNumber(sim));
    assert Allowed([a]) == [a] by { assert [a][1..] == []; }
    assert [a][..0] == [];
    assert PerformAll(Reader(delay).latency, x.desk, [a]) == Perform(Reader(delay).latency, x.desk, a);
    assert NumbersAfter(Reader(delay).latency, x.desk, [a], x.numbers, x.pushes)
        == NumberIn(x.desk.queue, x.numbers, Reader(delay).latency(x.desk.draws, x.desk.now), x.pushes);
    ActionPushes(Reader(delay).latency, x.desk, a);
  }

  lemma AppliedNumbered<S>(setup: B.Setup<S>, sim: B.Sim<S>)
    requires Numbered(sim) && !B.Done(sim)
    ensures Numbered(B.Applied(setup, sim)) && B.Applied(setup, sim).desk.now == sim.desk.queue[0].ts
  {
    AppliedTimely(setup, sim);
    if sim.tape != [] { EnqueuedMembers(sim.desk.queue[1..], OnTape(sim.tape[0])); }
  }

  lemma ReaderStaysOnce(sim: B.Sim<()>, t0: Millis)
    requires StillAt(sim, t0)
    ensures StillAt(B.Step(Reader(), sim), t0)
  {
    hide Delivered, Enqueue, NumberIn, Called, NumbersAfter;
    AppliedNumbered(Reader(), sim);
    StepTimely(Reader(), sim);
    ReaderActs(sim);
    var x := B.Applied(Reader(), sim);
    var e := ActionEvent(Reader().latency, x.desk, Bet(B.HeadNumber(sim)));
    EnqueuedBehind(x.desk.queue, x.numbers, e, x.pushes);
    EnqueuedMembers(x.desk.queue, e);
    NumberInLength(x.desk.queue, x.numbers, e.ts, x.pushes);
    HeadIsEarliest(B.Step(Reader(), sim).desk.queue, |UpTo(x.desk.queue, e.ts)|);
  }

  lemma {:induction false} ReaderStays(book: Book, tape: seq<MarketEvent>, n: nat)
    requires SortedTape(tape) && tape != []
    ensures StillAt(B.After(Reader(), B.Start(book, tape, ()), n), tape[0].ts)
  {
    if n == 0 {
      RunTimely(Reader(), book, tape, (), 0);
    } else {
      ReaderStays(book, tape, n - 1);
      ReaderStaysOnce(B.After(Reader(), B.Start(book, tape, ()), n - 1), tape[0].ts);
    }
  }

  /** An event tied with the head is served after exactly those in front of it, under its number. */
  lemma {:induction false} ReaderServes(sim: B.Sim<()>, t0: Millis, i: nat)
    requires StillAt(sim, t0) && i < |sim.desk.queue| && sim.desk.queue[i].ts == t0
    ensures var later := B.After(Reader(), sim, i);
            StillAt(later, t0) && later.desk.queue[0] == sim.desk.queue[i] && B.HeadNumber(later) == sim.numbers[i]
    decreases i
  {
    hide B.Step;
    if i > 0 {
      ReaderStaysOnce(sim, t0);
      StepKeepsPlace(Reader(), sim, i - 1);
      ReaderServes(B.Step(Reader(), sim), t0, i - 1);
      B.AfterSplits(Reader(), sim, 1, i);
      assert B.After(Reader(), sim, 1) == B.Step(Reader(), B.After(Reader(), sim, 0));
    }
  }

  /** One tape has run dry, the other has an event beyond the horizon to give: what is placed now gets other numbers. */
  lemma NumbersPart(a: B.Sim<()>, b: B.Sim<()>, t0: Millis) returns (i: nat)
    requires SameUpTo(a, b, t0) && SameNumbers(a, b, t0) && StillAt(a, t0) && StillAt(b, t0)
    requires a.tape == [] && b.tape != []
    ensures var x, y := B.Step(Reader(), a), B.Step(Reader(), b);
            && i < |x.desk.queue| && i < |y.desk.queue| && |x.numbers| == |x.desk.queue|
               && |y.numbers| == |y.desk.queue|
            && x.desk.queue[i] == y.desk.queue[i] && x.desk.queue[i].ts == t0 && y.numbers[i] == x.numbers[i] + 1
  {
    hide Delivered, Enqueue, NumberIn, NumbersAfter, B.Step;
    ReaderStaysOnce(a, t0);
    ReaderStaysOnce(b, t0);
    ReaderActs(a);
    ReaderActs(b);
    SameHeadNumber(a, b, t0);
    AppliedSame(Reader(), a, b, t0);
    AppliedNumbered(Reader(), a);
    AppliedNumbered(Reader(), b);
    var x, y := B.Applied(Reader(), a), B.Applied(Reader(), b);
    ShapeParts(x.desk, y.desk);
    var e := ActionEvent(Reader().latency, x.desk, Bet(B.HeadNumber(a)));
    EnqueuedBehind(x.desk.queue, x.numbers, e, x.pushes);
    EnqueuedBehind(y.desk.queue, y.numbers, e, y.pushes);
    i := |UpTo(x.desk.queue, t0)|;
  }

  lemma SameHeadNumber<S>(a: B.Sim<S>, b: B.Sim<S>, t: Millis)
    requires SameNumbers(a, b, t) && WithinHorizon(a, t) && WithinHorizon(b, t)
    ensures B.HeadNumber(a) == B.HeadNumber(b)
  {
    HeadIsNear(a, t);
    HeadIsNear(b, t);
    assert Near(a, t)[0] == B.HeadNumber(a) && Near(b, t)[0] == B.HeadNumber(b);
  }

  /**
   Two sorted tapes of different length that agree up to a time, with an event by then: on any book
   the same strategy is brought to act differently, before that time, by the number of its event alone.
   */
  lemma UnequalTapesShow(book: Book, tape: seq<MarketEvent>, other: seq<MarketEvent>, t: Millis) returns (k: nat)
    requires SortedTape(tape) && SortedTape(other) && TapeUpTo(tape, t) == TapeUpTo(other, t)
    requires tape != [] && tape[0].ts <= t && |tape| < |other|
    ensures var a, b := B.After(Reader(), B.Start(book, tape, ()), k), B.After(Reader(), B.Start(book, other, ()), k);
            && WithinHorizon(a, t) && WithinHorizon(b, t) && a.desk.queue[0] == b.desk.queue[0]
            && B.HeadNumber(b) == B.HeadNumber(a) + 1
            && B.ActionsTaken(Reader(), a) != B.ActionsTaken(Reader(), b)
  {
    hide B.Start, B.Step, SameUpTo, SameNumbers, TapeUpTo, B.ActionsTaken, B.After;
    var i := TapesPart(book, tape, other, t);
    var m := |tape|;
    k := m + i;
    var a, b := B.After(Reader(), B.Start(book, tape, ()), m), B.After(Reader(), B.Start(book, other, ()), m);
    ReaderServes(a, tape[0].ts, i);
    ReaderServes(b, tape[0].ts, i);
    B.AfterSplits(Reader(), B.Start(book, tape, ()), m, k);
    B.AfterSplits(Reader(), B.Start(book, other, ()), m, k);
    ReaderActs(B.After(Reader(), B.Start(book, tape, ()), k));
    ReaderActs(B.After(Reader(), B.Start(book, other, ()), k));
  }

  /** After as many steps as the shorter tape has events, an arrival on both queues carries two numbers. */
  lemma TapesPart(book: Book, tape: seq<MarketEvent>, other: seq<MarketEvent>, t: Millis) returns (i: nat)
    requires SortedTape(tape) && SortedTape(other) && TapeUpTo(tape, t) == TapeUpTo(other, t)
    requires tape != [] && tape[0].ts <= t && |tape| < |other|
    ensures var x, y := B.After(Reader(), B.Start(book, tape, ()), |tape|),
                B.After(Reader(), B.Start(book, other, ()), |tape|);
            && StillAt(x, tape[0].ts) && StillAt(y, tape[0].ts)
            && i < |x.desk.queue| && i < |y.desk.queue| && |x.numbers| == |x.desk.queue|
               && |y.numbers| == |y.desk.queue|
            && x.desk.queue[i] == y.desk.queue[i] && x.desk.queue[i].ts == tape[0].ts
               && y.numbers[i] == x.numbers[i] + 1
  {
    hide B.Start, B.Step, SameUpTo, SameNumbers, TapeUpTo, SortedTape, WithinHorizon, B.Done, StillAt;
    var t0, m := tape[0].ts, |tape| - 1;
    TapesUpTo(tape, other, t);
    SameUpToEarlier(tape, other, t, t0);
    BothStay(book, tape, other, m);
    ReaderStays(book, tape, m + 1);
    ReaderStays(book, other, m + 1);
    NumberedRunsAgree(Reader(), book, tape, other, (), t0, m);
    TapeLeft(Reader(), book, tape, (), m);
    TapeLeft(Reader(), book, other, (), m);
    i := NumbersPart(B.After(Reader(), B.Start(book, tape, ()), m), B.After(Reader(), B.Start(book, other, ()), m), t0);
    StillMeans(B.After(Reader(), B.Start(book, tape, ()), |tape|), t0);
    StillMeans(B.After(Reader(), B.Start(book, other, ()), |tape|), t0);
  }

  lemma StillMeans(sim: B.Sim<()>, t0: Millis)
    requires StillAt(sim, t0)
    ensures WithinHorizon(sim, t0) && !B.Done(sim) && |sim.numbers| == |sim.desk.queue|
  {
  }

  lemma BothStay(book: Book, tape: seq<MarketEvent>, other: seq<MarketEvent>, n: nat)
    requires SortedTape(tape) && SortedTape(other) && tape != [] && other != [] && tape[0] == other[0]
    ensures forall k :: 0 <= k <= n ==>
              && WithinHorizon(B.After(Reader(), B.Start(book, tape, ()), k), tape[0].ts)
              && !B.Done(B.After(Reader(), B.Start(book, tape, ()), k))
                 && !B.Done(B.After(Reader(), B.Start(book, other, ()), k))
              && StillAt(B.After(Reader(), B.Start(book, tape, ()), k), tape[0].ts)
              && StillAt(B.After(Reader(), B.Start(book, other, ()), k), tape[0].ts)
  {
    hide B.Start, B.After, B.Step, StillAt, WithinHorizon, B.Done, SortedTape;
    forall k | 0 <= k <= n
      ensures && WithinHorizon(B.After(Reader(), B.Start(book, tape, ()), k), tape[0].ts)
              && !B.Done(B.After(Reader(), B.Start(book, tape, ()), k))
                 && !B.Done(B.After(Reader(), B.Start(book, other, ()), k))
              && StillAt(B.After(Reader(), B.Start(book, tape, ()), k), tape[0].ts)
              && StillAt(B.After(Reader(), B.Start(book, other, ()), k), tape[0].ts)
    {
      ReaderStays(book, tape, k);
      ReaderStays(book, other, k);
      StillMeans(B.After(Reader(), B.Start(book, tape, ()), k), tape[0].ts);
      StillMeans(B.After(Reader(), B.Start(book, other, ()), k), tape[0].ts);
    }
  }

  /** Tapes that agree up to a time agree up to any earlier one. */
  lemma {:induction false} SameUpToEarlier(tape: seq<MarketEvent>, other: seq<MarketEvent>, t: Millis, t0: Millis)
    requires SortedTape(tape) && SortedTape(other) && TapeUpTo(tape, t) == TapeUpTo(other, t) && t0 <= t
    ensures TapeUpTo(tape, t0) == TapeUpTo(other, t0)
  {
    TapeUpToEarlier(tape, t, t0);
    TapeUpToEarlier(other, t, t0);
  }

  lemma {:induction false} TapeUpToEarlier(tape: seq<MarketEvent>, t: Millis, t0: Millis)
    requires t0 <= t
    ensures TapeUpTo(TapeUpTo(tape, t), t0) == TapeUpTo(tape, t0)
  {
    if tape != [] {
      TapeUpToEarlier(tape[1..], t, t0);
      if tape[0].ts <= t {
        assert ([tape[0]] + TapeUpTo(tape[1..], t))[1..] == TapeUpTo(tape[1..], t);
      } else {
        assert [] + TapeUpTo(tape[1..], t) == TapeUpTo(tape[1..], t);
      }
    }
  }

  /**
   The smallest case: one event against two. The order placed on the first event arrives under
   number 1 when there is no second event, and under number 2 when there is one, however much later.
   */
  lemma NextEventShows(book: Book, e0: MarketEvent, e1: MarketEvent, delay: nat)
    requires e0.ts + delay < e1.ts
    ensures var a, b := B.After(Reader(delay), B.Start(book, [e0], ()), 1),
                B.After(Reader(delay), B.Start(book, [e0, e1], ()), 1);
            && a.desk.queue != [] && b.desk.queue != [] && a.desk.queue[0] == b.desk.queue[0]
            && a.desk.queue[0].ts == e0.ts + delay && B.HeadNumber(a) == 1 && B.HeadNumber(b) == 2
            && B.ActionsTaken(Reader(delay), a) != B.ActionsTaken(Reader(delay), b)
  {
    hide B.ActionsTaken, B.Step, B.Start, B.Applied;
    FirstNumber(book, e0, [], delay);
    FirstNumber(book, e0, [e1], delay);
    assert [e0] + [] == [e0] && [e0] + [e1] == [e0, e1];
    var a0, b0 := B.Start(book, [e0], ()), B.Start(book, [e0, e1], ());
    assert B.After(Reader(delay), a0, 0) == a0 && B.After(Reader(delay), b0, 0) == b0;
    ReaderActs(B.Step(Reader(delay), a0), delay);
    ReaderActs(B.Step(Reader(delay), b0), delay);
  }

  lemma FirstNumber(book: Book, e0: MarketEvent, rest: seq<MarketEvent>, delay: nat)
    requires |rest| <= 1 && forall i :: 0 <= i < |rest| ==> e0.ts + delay < rest[i].ts
    ensures var start := B.Start(book, [e0] + rest, ());
            var after := B.Step(Reader(delay), start);
            && !B.Done(after) && B.HeadNumber(after) == |rest| + 1
            && after.desk.queue[0] == Timed(e0.ts + delay, PlaceArrival(Placement(1, Bid, 1.0, 1.0, true)))
  {
    hide Apply, B.ActionsTaken;
    var start := B.Start(book, [e0] + rest, ());
    assert ([e0] + rest)[1..] == rest;
    assert start.desk.queue == [OnTape(e0)] && start.numbers == [0] && start.tape == rest;
    var x := B.Applied(Reader(delay), start);
    assert rest == [] ==> x.desk.queue == [] && x.numbers == [];
    assert rest != [] ==> x.desk.queue == [OnTape(rest[0])] && x.numbers == [1];
    ReaderActs(start, delay);
  }

  /** Both runs have been within the horizon for k steps, and now do different things. */
  ghost predicate Parted<S>(setup: B.Setup<S>, book: Book, tape: seq<MarketEvent>, other: seq<MarketEvent>,
                            state: S, t: Millis, k: nat) {
    && (forall j :: 0 <= j <= k ==> WithinHorizon(B.After(setup, B.Start(book, tape, state), j), t))
    && (forall j :: 0 <= j <= k ==> WithinHorizon(B.After(setup, B.Start(book, other, state), j), t))
    && B.ActionsTaken(setup, B.After(setup, B.Start(book, tape, state), k))
       != B.ActionsTaken(setup, B.After(setup, B.Start(book, other, state), k))
  }

  lemma SameNumbersSameActions<S(!new)>(setup: B.Setup<S>, book: Book, tape: seq<MarketEvent>, other: seq<MarketEvent>,
                                        state: S, t: Millis, k: nat)
    requires SortedTape(tape) && SortedTape(other) && TapeUpTo(tape, t) == TapeUpTo(other, t) && |tape| == |other|
    ensures !Parted(setup, book, tape, other, state, t, k)
  {
    hide B.Start, B.Step, B.After, TapeUpTo, SortedTape, B.ActionsTaken;
    if Parted(setup, book, tape, other, state, t, k) {
      NumberedRunsAgree(setup, book, tape, other, state, t, k);
      var a, b := B.After(setup, B.Start(book, tape, state), k), B.After(setup, B.Start(book, other, state), k);
      SameHeadNumber(a, b, t);
      SameStep(setup, a, b, t);
    }
  }

  lemma UnequalTapesPart(book: Book, tape: seq<MarketEvent>, other: seq<MarketEvent>, t: Millis) returns (k: nat)
    requires SortedTape(tape) && SortedTape(other) && TapeUpTo(tape, t) == TapeUpTo(other, t)
    requires tape != [] && tape[0].ts <= t && |tape| < |other|
    ensures Parted(Reader(), book, tape, other, (), t, k) && Parted(Reader(), book, other, tape, (), t, k)
  {
    hide B.Start, B.Step, B.After, TapeUpTo, SortedTape, B.ActionsTaken;
    k := UnequalTapesShow(book, tape, other, t);
    TapesUpTo(tape, other, t);
    BothStay(book, tape, other, k);
    BothStay(book, other, tape, k);
  }

  /**
   Exactly when numbers tell nothing. Of two sorted tapes that agree up to a time, with an event by
   then, no strategy can be brought to act differently up to that time iff they are of the same length.
   */
  lemma NumbersTellNothingIff(book: Book, tape: seq<MarketEvent>, other: seq<MarketEvent>, t: Millis)
    requires SortedTape(tape) && SortedTape(other) && TapeUpTo(tape, t) == TapeUpTo(other, t)
    requires tape != [] && tape[0].ts <= t
    ensures |tape| == |other| <==> forall setup: B.Setup<()>, k: nat :: !Parted(setup, book, tape, other, (), t, k)
  {
    hide Parted, TapeUpTo, SortedTape;
    if |tape| == |other| {
      forall setup: B.Setup<()>, k: nat ensures !Parted(setup, book, tape, other, (), t, k) {
        SameNumbersSameActions(setup, book, tape, other, (), t, k);
      }
    } else {
      TapesUpTo(tape, other, t);
      var k: nat;
      if |tape| < |other| {
        k := UnequalTapesPart(book, tape, other, t);
      } else {
        k := UnequalTapesPart(book, other, tape, t);
      }
      assert Parted(Reader(), book, tape, other, (), t, k);
    }
  }
}
