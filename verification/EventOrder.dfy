/** The event queue in time: sortedness, stability, and the order in which a backtest sees events. */
module EventOrder {
  import opened OrderBook
  import opened TradingDesk
  import opened DeskInvariant
  import B = Backtest

  ghost predicate Sorted(queue: seq<Timed>) {
    forall i, j :: 0 <= i < j < |queue| ==> queue[i].ts <= queue[j].ts
  }

  ghost predicate SortedTape(tape: seq<MarketEvent>) {
    forall i, j :: 0 <= i < j < |tape| ==> tape[i].ts <= tape[j].ts
  }

  ghost predicate NotBefore(queue: seq<Timed>, t: Millis) {
    forall i :: 0 <= i < |queue| ==> t <= queue[i].ts
  }

  /** Market events are queued under their own time. */
  ghost predicate Stamped(queue: seq<Timed>) {
    forall x :: x in queue && x.payload.Market? ==> x.payload.event.ts == x.ts
  }

  lemma NotBeforeMembers(queue: seq<Timed>, t: Millis)
    ensures NotBefore(queue, t) <==> forall x :: x in queue ==> t <= x.ts
  {
    if NotBefore(queue, t) {
      forall x | x in queue ensures t <= x.ts {
        var i :| 0 <= i < |queue| && queue[i] == x;
      }
    }
  }

  lemma EnqueueNotBefore(queue: seq<Timed>, e: Timed, t: Millis)
    ensures NotBefore(Enqueue(queue, e), t) <==> NotBefore(queue, t) && t <= e.ts
  {
    EnqueuedMembers(queue, e);
    NotBeforeMembers(queue, t);
    NotBeforeMembers(Enqueue(queue, e), t);
  }

  lemma {:induction false} EnqueueSorted(queue: seq<Timed>, e: Timed)
    requires Sorted(queue)
    ensures Sorted(Enqueue(queue, e))
  {
    if queue == [] {
    } else if e.ts < queue[0].ts {
      forall i | 0 <= i < |queue| ensures e.ts <= queue[i].ts {
        if i > 0 { assert queue[0].ts <= queue[i].ts; }
      }
    } else {
      EnqueueSorted(queue[1..], e);
      EnqueueNotBefore(queue[1..], e, queue[0].ts);
    }
  }

  /** First come, first served among equals: an event goes in right behind everything not later than it. */
  lemma {:induction false} EnqueueIsStable(queue: seq<Timed>, e: Timed) returns (k: nat)
    requires Sorted(queue)
    ensures k <= |queue| && Enqueue(queue, e) == queue[..k] + [e] + queue[k..]
    ensures forall i :: 0 <= i < k ==> queue[i].ts <= e.ts
    ensures forall i :: k <= i < |queue| ==> e.ts < queue[i].ts
  {
    if queue == [] || e.ts < queue[0].ts {
      k := 0;
    } else {
      var rest := queue[1..];
      var l := EnqueueIsStable(rest, e);
      k := l + 1;
      assert queue[..k] == [queue[0]] + rest[..l] && queue[k..] == rest[l..];
      assert forall i :: 0 < i < |queue| ==> queue[i] == rest[i - 1];
    }
  }

  // ---------- the clock of a run ----------

  /** As long as the tape lasts, some market event of it is still on the queue. */
  ghost predicate TapeInStep(queue: seq<Timed>, tape: seq<MarketEvent>) {
    tape != [] ==> exists i :: 0 <= i < |queue| && queue[i].ts <= tape[0].ts
  }

  ghost predicate Timely<S>(sim: B.Sim<S>) {
    && Sorted(sim.desk.queue) && NotBefore(sim.desk.queue, sim.desk.now)
    && SortedTape(sim.tape) && TapeInStep(sim.desk.queue, sim.tape)
  }

  lemma TapeTail(tape: seq<MarketEvent>)
    requires SortedTape(tape) && tape != []
    ensures SortedTape(tape[1..]) && (tape[1..] != [] ==> tape[0].ts <= tape[1..][0].ts)
  {
    assert forall i :: 0 <= i < |tape[1..]| ==> tape[1..][i] == tape[i + 1];
  }

  lemma RefilledTimely<S>(sim: B.Sim<S>)
    requires Sorted(sim.desk.queue) && NotBefore(sim.desk.queue, sim.desk.now) && SortedTape(sim.tape)
    requires sim.tape != [] ==> sim.desk.now <= sim.tape[0].ts
    ensures Timely(B.Refilled(sim))
  {
    if sim.tape != [] {
      var e, after := OnTape(sim.tape[0]), B.Refilled(sim).desk.queue;
      EnqueueSorted(sim.desk.queue, e);
      EnqueueNotBefore(sim.desk.queue, e, sim.desk.now);
      EnqueuedMembers(sim.desk.queue, e);
      TapeTail(sim.tape);
      assert e in after;
      var i :| 0 <= i < |after| && after[i] == e;
      assert after[i].ts == sim.tape[0].ts;
    }
  }

  lemma HeadIsEarliest(queue: seq<Timed>, i: nat)
    requires Sorted(queue) && i < |queue|
    ensures queue[0].ts <= queue[i].ts
  {
  }

  lemma AppliedTimely<S>(setup: B.Setup<S>, sim: B.Sim<S>)
    requires Timely(sim) && sim.desk.queue != []
    ensures Timely(B.Applied(setup, sim))
    ensures B.Applied(setup, sim).desk.now == sim.desk.queue[0].ts
  {
    if sim.tape != [] {
      var i :| 0 <= i < |sim.desk.queue| && sim.desk.queue[i].ts <= sim.tape[0].ts;
      HeadIsEarliest(sim.desk.queue, i);
    }
    RefilledTimely(sim.(desk := DeliverHead(setup.category, sim.desk)));
  }

  lemma EnqueueKeepsInStep(queue: seq<Timed>, e: Timed, tape: seq<MarketEvent>)
    requires TapeInStep(queue, tape)
    ensures TapeInStep(Enqueue(queue, e), tape)
  {
    if tape != [] {
      EnqueuedMembers(queue, e);
      var i :| 0 <= i < |queue| && queue[i].ts <= tape[0].ts;
      assert queue[i] in Enqueue(queue, e);
    }
  }

  lemma {:induction false} PerformAllTimely(latency: Latency, d: Desk, actions: seq<Action>, tape: seq<MarketEvent>)
    requires Causal(latency) && (forall i :: 0 <= i < |actions| ==> Acceptable(actions[i]))
    requires Sorted(d.queue) && NotBefore(d.queue, d.now) && TapeInStep(d.queue, tape)
    ensures var after := PerformAll(latency, d, actions);
            Sorted(after.queue) && NotBefore(after.queue, after.now) && TapeInStep(after.queue, tape)
                && after.now == d.now
  {
    if actions != [] {
      PerformAllTimely(latency, d, actions[..|actions| - 1], tape);
      var before, a := PerformAll(latency, d, actions[..|actions| - 1]), actions[|actions| - 1];
      var e := ActionEvent(latency, before, a);
      assert Perform(latency, before, a).queue == Enqueue(before.queue, e);
      EnqueueSorted(before.queue, e);
      EnqueueNotBefore(before.queue, e, before.now);
      EnqueueKeepsInStep(before.queue, e, tape);
    }
  }

  lemma StepTimely<S>(setup: B.Setup<S>, sim: B.Sim<S>)
    requires Timely(sim) && Causal(setup.latency)
    ensures Timely(B.Step(setup, sim))
    ensures !B.Done(sim) ==> B.Step(setup, sim).desk.now == sim.desk.queue[0].ts >= sim.desk.now
  {
    if !B.Done(sim) {
      AppliedTimely(setup, sim);
      var applied := B.Applied(setup, sim);
      PerformAllTimely(setup.latency, applied.desk,
                       B.ActionsTaken(setup, sim), applied.tape);
    }
  }

  lemma {:induction false} RunTimely<S>(setup: B.Setup<S>, book: Book, tape: seq<MarketEvent>, state: S, n: nat)
    requires SortedTape(tape) && Causal(setup.latency)
    ensures Timely(B.After(setup, B.Start(book, tape, state), n))
  {
    hide B.Step, Timely;
    if n == 0 {
      RefilledTimely(B.Unprimed(book, tape, state));
    } else {
      RunTimely(setup, book, tape, state, n - 1);
      StepTimely(setup, B.After(setup, B.Start(book, tape, state), n - 1));
    }
  }

  ghost predicate TimelyFrom<S>(sim: B.Sim<S>, t: Millis) {
    Timely(sim) && t <= sim.desk.now
  }

  lemma StepTimelyFrom<S>(setup: B.Setup<S>, sim: B.Sim<S>, t: Millis)
    requires TimelyFrom(sim, t) && Causal(setup.latency)
    ensures TimelyFrom(B.Step(setup, sim), t)
  {
    StepTimely(setup, sim);
  }

  lemma {:induction false} ClockAdvances<S>(setup: B.Setup<S>, sim: B.Sim<S>, t: Millis, k: nat)
    requires TimelyFrom(sim, t) && Causal(setup.latency)
    ensures TimelyFrom(B.After(setup, sim, k), t)
  {
    hide B.Step, TimelyFrom;
    if k > 0 {
      ClockAdvances(setup, sim, t, k - 1);
      StepTimelyFrom(setup, B.After(setup, sim, k - 1), t);
    }
  }

  lemma ClockBetween<S>(setup: B.Setup<S>, start: B.Sim<S>, n: nat, m: nat)
    requires Causal(setup.latency) && n <= m && Timely(B.After(setup, start, n))
    ensures B.After(setup, start, n).desk.now <= B.After(setup, start, m).desk.now
  {
    hide B.Step, B.After;
    var sim := B.After(setup, start, n);
    B.AfterSplits(setup, start, n, m);
    ClockAdvances(setup, sim, sim.desk.now, m - n);
    assert TimelyFrom(B.After(setup, start, m), sim.desk.now);
  }

  /** On a sorted tape, with no arrival before its decision, events are popped in order of time. */
  lemma ClockNeverGoesBack<S>(setup: B.Setup<S>, book: Book, tape: seq<MarketEvent>, state: S, n: nat, m: nat)
    requires SortedTape(tape) && Causal(setup.latency) && n <= m
    ensures B.After(setup, B.Start(book, tape, state), n).desk.now
            <= B.After(setup, B.Start(book, tape, state), m).desk.now
  {
    RunTimely(setup, book, tape, state, n);
    ClockBetween(setup, B.Start(book, tape, state), n, m);
  }
}
