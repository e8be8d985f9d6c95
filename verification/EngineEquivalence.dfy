/**
 Backtester and paper trader agree. On a sorted tape, for a strategy that acts on market events only
 and does not read numbers, both are in the same state after every market event - however watchdog
 and foreign messages are interleaved - as long as no arrival is decided for the very millisecond of
 a market event that the backtester has already pulled off the tape.
 */
module EngineEquivalence {
  import opened OrderBook
  import opened BookInvariant
  import opened Fees
  import opened TradingDesk
  import opened DeskInvariant
  import opened EventOrder
  import opened KillSwitches
  import opened HaltProtocol
  import opened Quoting
  import B = Backtest
  import P = Paper

  // ---------- the hypotheses ----------

  /** Silent and unmoved on arrivals, and never refused a placement. */
  ghost predicate ActsOnMarketOnly<S(!new)>(strategy: Strategy<S>) {
    forall state: S, view: View, e: Timed, n: nat ::
      && !Raises(strategy.onEvent(state, view, e, n).actions)
      && (!e.payload.Market? ==> strategy.onEvent(state, view, e, n) == Reply(state, []))
  }

  function Paired<S>(setup: B.Setup<S>, limits: Limits): P.PaperSetup<S> {
    P.PaperSetup(setup.category, setup.latency, setup.strategy, limits)
  }

  /** The market events among a trader's inputs. */
  function EventsOf(inputs: seq<P.Input>): seq<MarketEvent> {
    if inputs == [] then []
    else EventsOf(inputs[..|inputs| - 1])
         + (if inputs[|inputs| - 1].MarketMessage? then [inputs[|inputs| - 1].event] else [])
  }

  ghost predicate NoTieWith(queue: seq<Timed>, rest: seq<MarketEvent>) {
    forall x, j :: x in queue && 0 <= j < |rest| ==> x.ts != rest[j].ts
  }

  /** After no input is an arrival under way at the time of a market event still to come. */
  ghost predicate NoTieInRun<S>(setup: P.PaperSetup<S>, start: P.Trader<S>, tape: seq<MarketEvent>,
                                inputs: seq<P.Input>)
    requires setup.limits.Valid() && |EventsOf(inputs)| <= |tape| && EventsOf(inputs) == tape[..|EventsOf(inputs)|]
  {
    && NoTieWith(P.After(setup, start, inputs).desk.queue, tape[|EventsOf(inputs)|..])
    && (inputs != [] ==>
          var init := inputs[..|inputs| - 1];
          assert EventsOf(init) == tape[..|EventsOf(init)|];
          NoTieInRun(setup, start, tape, init))
  }

  /** The events of `rest` that the backtester has off the tape once a trader has handled all but `rest`. */
  function ReadAhead(rest: seq<MarketEvent>, d: Desk): (r: seq<MarketEvent>)
    ensures |r| <= |rest| && r == rest[..|r|]
    ensures |d.queue| <= d.draws && |rest| > d.draws - |d.queue| ==> |r| == d.draws - |d.queue| + 1
  {
    if |d.queue| > d.draws || |rest| <= d.draws - |d.queue| then rest else rest[..d.draws - |d.queue| + 1]
  }

  /** The arrivals numbered up to `later`, decided on this desk, are not for the time of any of these events. */
  ghost predicate NotOvertaken(latency: Latency, d: Desk, later: nat, ahead: seq<MarketEvent>) {
    forall m: nat, i :: d.draws <= m < later && 0 <= i < |ahead| ==> ahead[i].ts != latency(m, d.now)
  }

  /** No callback of the run schedules an arrival for the time of an event the backtester has read ahead. */
  ghost predicate NoneOvertaken<S>(setup: P.PaperSetup<S>, start: P.Trader<S>, tape: seq<MarketEvent>,
                                   inputs: seq<P.Input>)
    requires setup.limits.Valid() && |EventsOf(inputs)| <= |tape| && EventsOf(inputs) == tape[..|EventsOf(inputs)|]
  {
    inputs != [] ==>
      var init, last := inputs[..|inputs| - 1], inputs[|inputs| - 1];
      assert EventsOf(init) == tape[..|EventsOf(init)|];
      && NoneOvertaken(setup, start, tape, init)
      && (last.MarketMessage? ==>
            var drained := P.Drained(setup.category, P.After(setup, start, init), last.event.ts).desk;
            var after := P.After(setup, start, inputs).desk;
            NotOvertaken(setup.latency, drained.(now := after.now), after.draws,
                         ReadAhead(tape[|EventsOf(inputs)|..], drained)))
  }

  // ---------- the two queues ----------

  function Arrivals(queue: seq<Timed>): seq<Timed> {
    if queue == [] then []
    else (if queue[0].payload.Market? then [] else [queue[0]]) + Arrivals(queue[1..])
  }

  function Markets(queue: seq<Timed>): seq<MarketEvent> {
    if queue == [] then []
    else (if queue[0].payload.Market? then [queue[0].payload.event] else []) + Markets(queue[1..])
  }

  lemma {:induction false} ArrivalsMember(queue: seq<Timed>, x: Timed)
    ensures x in Arrivals(queue) <==> x in queue && !x.payload.Market?
  {
    if queue != [] {
      ArrivalsMember(queue[1..], x);
      assert queue == [queue[0]] + queue[1..];
    }
  }

  lemma {:induction false} MarketsMember(queue: seq<Timed>, event: MarketEvent)
    requires event in Markets(queue)
    ensures exists x :: x in queue && x.payload == Market(event)
  {
    if queue[0].payload == Market(event) {
      assert queue[0] in queue;
    } else {
      MarketsMember(queue[1..], event);
      var x :| x in queue[1..] && x.payload == Market(event);
      assert x in queue;
    }
  }

  lemma {:induction false} NoArrivalsBeforeLate(queue: seq<Timed>, t: Millis)
    requires forall x :: x in queue ==> t < x.ts
    ensures forall x :: x in Arrivals(queue) ==> t < x.ts
  {
    forall x | x in Arrivals(queue) ensures t < x.ts { ArrivalsMember(queue, x); }
  }

  lemma {:induction false} ArrivalsEnqueue(queue: seq<Timed>, e: Timed)
    requires Sorted(queue)
    ensures Arrivals(Enqueue(queue, e)) == if e.payload.Market? then Arrivals(queue) else Enqueue(Arrivals(queue), e)
  {
    if queue == [] {
    } else if e.ts < queue[0].ts {
      forall x | x in queue ensures e.ts < x.ts {
        var i :| 0 <= i < |queue| && queue[i] == x;
        HeadIsEarliest(queue, i);
      }
      assert ([e] + queue)[1..] == queue;
      NoArrivalsBeforeLate(queue, e.ts);
    } else {
      ArrivalsEnqueue(queue[1..], e);
      assert ([queue[0]] + Enqueue(queue[1..], e))[1..] == Enqueue(queue[1..], e);
      if queue[0].payload.Market? {
        assert Arrivals(queue) == Arrivals(queue[1..]);
      } else {
        assert Arrivals(queue)[0] == queue[0] && Arrivals(queue)[1..] == Arrivals(queue[1..]);
      }
    }
  }

  lemma {:induction false} MarketsEnqueueArrival(queue: seq<Timed>, e: Timed)
    requires !e.payload.Market?
    ensures Markets(Enqueue(queue, e)) == Markets(queue)
  {
    if queue == [] || e.ts < queue[0].ts {
      assert ([e] + queue)[1..] == queue;
    } else {
      MarketsEnqueueArrival(queue[1..], e);
      assert ([queue[0]] + Enqueue(queue[1..], e))[1..] == Enqueue(queue[1..], e);
    }
  }

  lemma HeadNotLater(queue: seq<Timed>, x: Timed)
    requires Sorted(queue) && x in queue
    ensures queue[0].ts <= x.ts
  {
    var i :| 0 <= i < |queue| && queue[i] == x;
    HeadIsEarliest(queue, i);
  }

  lemma NoneBefore(queue: seq<Timed>, event: MarketEvent)
    requires Stamped(queue) && Sorted(queue) && queue != [] && event.ts < queue[0].ts
    requires forall m :: m in Markets(queue) ==> m.ts <= event.ts
    ensures Markets(queue) == []
  {
    if Markets(queue) != [] {
      var m := Markets(queue)[0];
      MarketsMember(queue, m);
      var x :| x in queue && x.payload == Market(m);
      HeadNotLater(queue, x);
    }
  }

  /** The next market event of a sorted tape goes behind the ones already queued. */
  lemma {:induction false} MarketsEnqueueNext(queue: seq<Timed>, event: MarketEvent)
    requires Stamped(queue) && Sorted(queue) && forall m :: m in Markets(queue) ==> m.ts <= event.ts
    ensures Markets(Enqueue(queue, OnTape(event))) == Markets(queue) + [event]
  {
    var e := OnTape(event);
    if queue == [] {
      assert [e][1..] == [];
    } else if e.ts < queue[0].ts {
      assert ([e] + queue)[1..] == queue;
      NoneBefore(queue, event);
    } else {
      hide Markets, Sorted;
      assert queue == [queue[0]] + queue[1..];
      assert forall m :: m in Markets(queue[1..]) ==> m in Markets(queue);
      MarketsEnqueueNext(queue[1..], event);
    }
  }

  /** Each arrival stands before every market event of its time. */
  ghost predicate ArrivalsFirst(queue: seq<Timed>) {
    forall p, q :: 0 <= p < q < |queue| && queue[p].payload.Market? && !queue[q].payload.Market? ==>
      queue[p].ts < queue[q].ts
  }

  lemma ArrivalsFirstTail(queue: seq<Timed>)
    requires ArrivalsFirst(queue) && queue != []
    ensures ArrivalsFirst(queue[1..])
  {
  }

  lemma ArrivalsFirstEnqueue(queue: seq<Timed>, e: Timed)
    requires ArrivalsFirst(queue) && Sorted(queue) && Stamped(queue)
    requires e.payload.Market? || forall i :: 0 <= i < |Markets(queue)| ==> Markets(queue)[i].ts != e.ts
    ensures ArrivalsFirst(Enqueue(queue, e))
  {
    hide Enqueue, Markets;
    var k := EnqueueIsStable(queue, e);
    var after := Enqueue(queue, e);
    forall p, q | 0 <= p < q < |after| && after[p].payload.Market? && !after[q].payload.Market?
      ensures after[p].ts < after[q].ts
    {
      if q == k {
        assert after[p] == queue[p] && queue[p] in queue;
        MarketsHave(queue, p);
        var i :| 0 <= i < |Markets(queue)| && Markets(queue)[i] == queue[p].payload.event;
      } else if p == k {
        assert after[q] == queue[q - 1];
      } else {
        assert after[p] == queue[if p < k then p else p - 1] && after[q] == queue[if q < k then q else q - 1];
      }
    }
  }

  lemma {:induction false} MarketsHave(queue: seq<Timed>, p: nat)
    requires p < |queue| && queue[p].payload.Market?
    ensures queue[p].payload.event in Markets(queue)
  {
    if p > 0 { MarketsHave(queue[1..], p - 1); }
  }

  /** A market event at the head is earlier than every arrival. */
  lemma HeadIsStrictlyFirst(queue: seq<Timed>)
    requires queue != [] && queue[0].payload.Market? && ArrivalsFirst(queue)
    ensures Arrivals(queue) != [] ==> queue[0].ts < Arrivals(queue)[0].ts
  {
    if Arrivals(queue) != [] {
      ArrivalsMember(queue, Arrivals(queue)[0]);
      var q :| 0 <= q < |queue| && queue[q] == Arrivals(queue)[0];
    }
  }

  // ---------- the link ----------

  /** The two desks, apart from market events queued ahead and the calls made on arrivals. */
  function Comparable(d: Desk): Desk {
    d.(queue := Arrivals(d.queue), history := d.history.(calls := []))
  }

  /** `rest` are the market events that neither has handled. */
  ghost predicate Linked<S>(sim: B.Sim<S>, t: P.Trader<S>, rest: seq<MarketEvent>) {
    && Comparable(sim.desk) == Comparable(t.desk) && Arrivals(t.desk.queue) == t.desk.queue
    && sim.state == t.state && !sim.raised
    && Markets(sim.desk.queue) + sim.tape == rest && SortedTape(rest)
    && (sim.tape != [] ==> Markets(sim.desk.queue) != [])
    && Timely(sim) && Stamped(sim.desk.queue) && ArrivalsFirst(sim.desk.queue)
    && |Markets(sim.desk.queue)| + |t.desk.queue| <= t.desk.draws + 1
  }

  /** The head of a queue is its first arrival or its first market event, and not later than the other one. */
  lemma HeadIsOneOf(queue: seq<Timed>)
    requires queue != [] && Stamped(queue) && Sorted(queue)
    ensures queue[0].payload.Market? ==>
              && Markets(queue) == [queue[0].payload.event] + Markets(queue[1..])
                 && Arrivals(queue[1..]) == Arrivals(queue)
              && queue[0] == OnTape(Markets(queue)[0])
              && (Arrivals(queue) != [] ==> queue[0].ts <= Arrivals(queue)[0].ts)
    ensures !queue[0].payload.Market? ==>
              && Arrivals(queue) == [queue[0]] + Arrivals(queue[1..]) && Markets(queue[1..]) == Markets(queue)
              && (Markets(queue) != [] ==> queue[0].ts <= Markets(queue)[0].ts)
  {
    assert queue[0] in queue;
    if queue[0].payload.Market? {
      if Arrivals(queue) != [] {
        ArrivalsMember(queue, Arrivals(queue)[0]);
        HeadNotLater(queue, Arrivals(queue)[0]);
      }
    } else if Markets(queue) != [] {
      MarketsMember(queue, Markets(queue)[0]);
      var x :| x in queue && x.payload == Market(Markets(queue)[0]);
      HeadNotLater(queue, x);
    }
  }

  lemma NothingQueued(queue: seq<Timed>)
    requires queue == []
    ensures Arrivals(queue) == [] && Markets(queue) == []
  {
  }

  lemma ArrivalIsNext<S>(sim: B.Sim<S>, t: P.Trader<S>, rest: seq<MarketEvent>)
    requires Linked(sim, t, rest) && t.desk.queue != [] && (rest != [] ==> t.desk.queue[0].ts <= rest[0].ts)
    ensures sim.desk.queue != [] && sim.desk.queue[0] == t.desk.queue[0] && !sim.desk.queue[0].payload.Market?
  {
    hide NotBefore, TapeInStep, SortedTape, Arrivals, Markets, Sorted, ArrivalsFirst;
    ComparableParts(sim.desk, t.desk);
    assert Arrivals(sim.desk.queue) == t.desk.queue;
    if sim.desk.queue == [] {
      NothingQueued(sim.desk.queue);
    } else {
      HeadIsOneOf(sim.desk.queue);
      if sim.desk.queue[0].payload.Market? { HeadIsStrictlyFirst(sim.desk.queue); }
    }
  }

  lemma MarketIsNext<S>(sim: B.Sim<S>, t: P.Trader<S>, rest: seq<MarketEvent>)
    requires Linked(sim, t, rest) && rest != [] && (t.desk.queue != [] ==> rest[0].ts < t.desk.queue[0].ts)
    ensures sim.desk.queue != [] && sim.desk.queue[0] == OnTape(rest[0])
  {
    hide NotBefore, TapeInStep, SortedTape, Arrivals, Markets, Sorted, ArrivalsFirst;
    ComparableParts(sim.desk, t.desk);
    assert Arrivals(sim.desk.queue) == t.desk.queue;
    if sim.desk.queue == [] { NothingQueued(sim.desk.queue); } else { HeadIsOneOf(sim.desk.queue); }
  }

  // ---------- refilling ----------

  lemma RefillLinked<S>(sim: B.Sim<S>, rest: seq<MarketEvent>)
    requires Markets(sim.desk.queue) + sim.tape == rest && SortedTape(rest)
    requires Sorted(sim.desk.queue) && Stamped(sim.desk.queue)
    ensures var after := B.Refilled(sim);
            && Markets(after.desk.queue) + after.tape == rest
            && (after.tape != [] ==> Markets(after.desk.queue) != [])
            && Arrivals(after.desk.queue) == Arrivals(sim.desk.queue)
            && Stamped(after.desk.queue) && (ArrivalsFirst(sim.desk.queue) ==> ArrivalsFirst(after.desk.queue))
            && |Markets(after.desk.queue)| <= |Markets(sim.desk.queue)| + 1
            && after.desk.(queue := []) == sim.desk.(queue := [])
  {
    hide Markets, Arrivals, Enqueue, Sorted, ArrivalsFirst;
    if sim.tape != [] {
      var m, e := Markets(sim.desk.queue), OnTape(sim.tape[0]);
      forall x | x in m ensures x.ts <= sim.tape[0].ts {
        var i :| 0 <= i < |m| && m[i] == x;
        assert rest[i] == x && rest[|m|] == sim.tape[0];
      }
      MarketsEnqueueNext(sim.desk.queue, sim.tape[0]);
      ArrivalsEnqueue(sim.desk.queue, e);
      EnqueuedMembers(sim.desk.queue, e);
      if ArrivalsFirst(sim.desk.queue) { ArrivalsFirstEnqueue(sim.desk.queue, e); }
      assert m + [sim.tape[0]] + sim.tape[1..] == m + sim.tape;
    }
  }

  // ---------- an arrival ----------

  lemma SameDelivery(category: FeeCategory, a: Desk, b: Desk, e: Timed)
    requires a.core == b.core && a.nextId == b.nextId && a.draws == b.draws
    requires a.history.(calls := []) == b.history.(calls := [])
    ensures var x, y := Delivered(category, a, e), Delivered(category, b, e);
            && x.core == y.core && x.now == y.now && x.nextId == y.nextId && x.draws == y.draws
            && x.history.(calls := []) == y.history.(calls := [])
  {
    var h := b.history;
    assert a.history == h.(calls := a.history.calls);
  }

  lemma QuietCall<S(!new)>(setup: B.Setup<S>, d: Desk, state: S, e: Timed, seqNo: nat)
    requires ActsOnMarketOnly(setup.strategy) && !e.payload.Market?
    ensures var (after, state', raised) := Called(setup.strategy, setup.latency, d, state, e, seqNo);
            after == d.(history := after.history) && after.history.(calls := []) == d.history.(calls := [])
            && state' == state && !raised
  {
    assert setup.strategy.onEvent(state, ViewOf(d), e, seqNo) == Reply(state, []);
  }

  lemma StampedTail(queue: seq<Timed>)
    requires Stamped(queue) && queue != []
    ensures Stamped(queue[1..])
  {
    assert forall x :: x in queue[1..] ==> x in queue;
  }

  lemma ComparableParts(a: Desk, b: Desk)
    requires Comparable(a) == Comparable(b)
    ensures a.core == b.core && a.nextId == b.nextId && a.draws == b.draws && a.now == b.now
    ensures a.history.(calls := []) == b.history.(calls := []) && Arrivals(a.queue) == Arrivals(b.queue)
  {
    assert Comparable(a).core == Comparable(b).core && Comparable(a).history == Comparable(b).history;
    assert Comparable(a).nextId == Comparable(b).nextId && Comparable(a).draws == Comparable(b).draws;
    assert Comparable(a).now == Comparable(b).now && Comparable(a).queue == Comparable(b).queue;
  }

  /** Handling the next arrival: the trader drains it, the backtester steps over it. */
  lemma ArrivalLinked<S(!new)>(setup: B.Setup<S>, sim: B.Sim<S>, t: P.Trader<S>, rest: seq<MarketEvent>)
    requires Linked(sim, t, rest) && t.desk.queue != [] && (rest != [] ==> t.desk.queue[0].ts <= rest[0].ts)
    requires ActsOnMarketOnly(setup.strategy) && Causal(setup.latency)
    ensures Linked(B.Step(setup, sim), P.DrainOne(setup.category, t), rest)
  {
    hide Sorted, NotBefore, SortedTape, TapeInStep, Apply, Noted, ActsOnMarketOnly, ArrivalsFirst;
    ArrivalIsNext(sim, t, rest);
    var e := t.desk.queue[0];
    HeadIsOneOf(sim.desk.queue);
    HeadOfArrivals(t.desk.queue);
    ComparableParts(sim.desk, t.desk);
    var a, b := sim.desk.(queue := sim.desk.queue[1..]), t.desk.(queue := t.desk.queue[1..]);
    SameDelivery(setup.category, a, b, e);
    StampedTail(sim.desk.queue);
    SortedTail(sim.desk.queue);
    ArrivalsFirstTail(sim.desk.queue);
    var delivered := sim.(desk := DeliverHead(setup.category, sim.desk));
    RefillLinked(delivered, rest);
    var applied := B.Applied(setup, sim);
    QuietCall(setup, applied.desk, sim.state, e, B.HeadNumber(sim));
    StepTimely(setup, sim);
    assert P.Due(t.desk) == t.desk;
  }

  lemma SortedTail(queue: seq<Timed>)
    requires Sorted(queue) && queue != []
    ensures Sorted(queue[1..])
  {
  }

  lemma HeadOfArrivals(queue: seq<Timed>)
    requires queue != [] && Arrivals(queue) == queue
    ensures !queue[0].payload.Market? && Arrivals(queue[1..]) == queue[1..]
  {
    ArrivalsMember(queue, queue[0]);
    assert queue[0] in Arrivals(queue);
    assert Arrivals(queue) == [queue[0]] + Arrivals(queue[1..]);
    assert Arrivals(queue)[1..] == queue[1..];
  }

  // ---------- the actions of a callback ----------

  lemma {:induction false} ArrivalsSorted(queue: seq<Timed>)
    requires Sorted(queue)
    ensures Sorted(Arrivals(queue))
  {
    if queue != [] {
      ArrivalsSorted(queue[1..]);
      if !queue[0].payload.Market? {
        forall x | x in Arrivals(queue[1..]) ensures queue[0].ts <= x.ts { ArrivalsMember(queue[1..], x); }
        NotBeforeMembers(queue[1..], queue[0].ts);
        NotBeforeMembers(Arrivals(queue[1..]), queue[0].ts);
      }
    }
  }

  /** Two desks in the middle of the same callback. */
  ghost predicate Acting(a: Desk, b: Desk, markets: seq<MarketEvent>) {
    && Comparable(a) == Comparable(b) && Arrivals(b.queue) == b.queue
    && Sorted(a.queue) && Stamped(a.queue) && ArrivalsFirst(a.queue) && Markets(a.queue) == markets
  }

  lemma EnqueueActing(a: Desk, b: Desk, e: Timed, markets: seq<MarketEvent>)
    requires Acting(a, b, markets) && !e.payload.Market?
    requires forall i :: 0 <= i < |markets| ==> markets[i].ts != e.ts
    ensures Acting(a.(queue := Enqueue(a.queue, e)), b.(queue := Enqueue(b.queue, e)), markets)
  {
    hide Comparable, ArrivalsFirst;
    ComparableParts(a, b);
    ArrivalsFirstEnqueue(a.queue, e);
    ArrivalsSorted(a.queue);
    ArrivalsEnqueue(a.queue, e);
    ArrivalsEnqueue(b.queue, e);
    MarketsEnqueueArrival(a.queue, e);
    EnqueueSorted(a.queue, e);
    EnqueuedMembers(a.queue, e);
    EnqueuedMembers(b.queue, e);
    assert Comparable(a.(queue := Enqueue(a.queue, e))) == Comparable(b.(queue := Enqueue(b.queue, e))) by {
      ComparableFrom(a, b, Enqueue(a.queue, e), Enqueue(b.queue, e));
    }
  }

  lemma ComparableFrom(a: Desk, b: Desk, p: seq<Timed>, q: seq<Timed>)
    requires Comparable(a) == Comparable(b) && Arrivals(p) == Arrivals(q)
    ensures Comparable(a.(queue := p)) == Comparable(b.(queue := q))
  {
    assert Comparable(a.(queue := p)) == Comparable(a).(queue := Arrivals(p));
    assert Comparable(b.(queue := q)) == Comparable(b).(queue := Arrivals(q));
  }

  /** What a callback changes besides the queues does not part two desks that change alike. */
  lemma ActingBesides(a: Desk, b: Desk, x: Desk, y: Desk, markets: seq<MarketEvent>)
    requires Acting(a, b, markets) && x.queue == a.queue && y.queue == b.queue
    requires x.core == y.core && x.nextId == y.nextId && x.draws == y.draws && x.now == y.now
    requires x.history.(calls := []) == y.history.(calls := [])
    ensures Acting(x, y, markets)
  {
    hide Markets, ArrivalsFirst;
    ComparableParts(a, b);
  }

  lemma SamePerform(latency: Latency, a: Desk, b: Desk, action: Action, markets: seq<MarketEvent>)
    requires Acting(a, b, markets) && Acceptable(action) && NotOvertaken(latency, a, a.draws + 1, markets)
    ensures Acting(Perform(latency, a, action), Perform(latency, b, action), markets)
  {
    hide Enqueue, Arrivals, Markets, ArrivalsFirst;
    ComparableParts(a, b);
    var e := ActionEvent(latency, a, action);
    EnqueueActing(a, b, e, markets);
    ActingBesides(a.(queue := Enqueue(a.queue, e)), b.(queue := Enqueue(b.queue, e)),
                  Perform(latency, a, action), Perform(latency, b, action), markets);
  }

  /** Each action takes one draw of the latency and puts one arrival on the queue; the clock stands still. */
  lemma {:induction false} ActionsDraw(latency: Latency, d: Desk, actions: seq<Action>)
    requires forall i :: 0 <= i < |actions| ==> Acceptable(actions[i])
    ensures var after := PerformAll(latency, d, actions);
            after.draws == d.draws + |actions| && after.now == d.now && |after.queue| == |d.queue| + |actions|
  {
    if actions != [] {
      var before, last := PerformAll(latency, d, actions[..|actions| - 1]), actions[|actions| - 1];
      ActionsDraw(latency, d, actions[..|actions| - 1]);
      EnqueuedMembers(before.queue, ActionEvent(latency, before, last));
    }
  }

  lemma {:induction false} SamePerformAll(latency: Latency, a: Desk, b: Desk, actions: seq<Action>,
                                          markets: seq<MarketEvent>)
    requires Acting(a, b, markets)
    requires (forall i :: 0 <= i < |actions| ==> Acceptable(actions[i]))
             && NotOvertaken(latency, a, a.draws + |actions|, markets)
    ensures Acting(PerformAll(latency, a, actions), PerformAll(latency, b, actions), markets)
  {
    hide Acting, Perform;
    if actions != [] {
      ActionsDraw(latency, a, actions[..|actions| - 1]);
      SamePerformAll(latency, a, b, actions[..|actions| - 1], markets);
      SamePerform(latency, PerformAll(latency, a, actions[..|actions| - 1]),
                  PerformAll(latency, b, actions[..|actions| - 1]),
                  actions[|actions| - 1], markets);
    }
  }

  lemma SameView(a: Desk, b: Desk)
    requires Comparable(a) == Comparable(b)
    ensures ViewOf(a) == ViewOf(b)
  {
    ComparableParts(a, b);
  }

  lemma SameCall<S(!new)>(setup: B.Setup<S>, a: Desk, b: Desk, state: S, e: Timed, n: nat, m: nat,
                          markets: seq<MarketEvent>)
    requires Acting(a, b, markets) && SameToStrategy(setup.strategy, n, m)
    requires NotOvertaken(setup.latency, a, Called(setup.strategy, setup.latency, b, state, e, m).0.draws, markets)
    ensures var (x, p, q) := Called(setup.strategy, setup.latency, a, state, e, n);
            var (y, r, s) := Called(setup.strategy, setup.latency, b, state, e, m);
            && Acting(x, y, markets) && p == r && q == s
            && |y.queue| + b.draws == |b.queue| + y.draws && y.draws >= b.draws
  {
    SameView(a, b);
    ComparableParts(a, b);
    var reply := setup.strategy.onEvent(state, ViewOf(a), e, n);
    assert setup.strategy.onEvent(state, ViewOf(b), e, m) == reply;
    ActionsDraw(setup.latency, b, Allowed(reply.actions));
    SamePerformAll(setup.latency, a, b, Allowed(reply.actions), markets);
    var x, y := PerformAll(setup.latency, a, Allowed(reply.actions)),
        PerformAll(setup.latency, b, Allowed(reply.actions));
  }

  // ---------- a market event ----------

  /** Before the callback: the event applied on both sides, the backtester refilled. */
  lemma MarketApplies<S>(setup: B.Setup<S>, sim: B.Sim<S>, t: P.Trader<S>, rest: seq<MarketEvent>)
    requires Linked(sim, t, rest) && rest != [] && (t.desk.queue != [] ==> rest[0].ts < t.desk.queue[0].ts)
    ensures sim.desk.queue != [] && sim.desk.queue[0] == OnTape(rest[0])
    ensures var x, y := B.Applied(setup, sim), P.MarketApplied(setup.category, t, rest[0]);
            && Acting(x.desk, y.desk, Markets(x.desk.queue))
            && Markets(x.desk.queue) + x.tape == rest[1..] && SortedTape(rest[1..])
            && (x.tape != [] ==> Markets(x.desk.queue) != [])
            && x.desk.now == rest[0].ts && y.state == t.state && y.switch == t.switch
            && x.desk.draws == t.desk.draws && y.desk.draws == t.desk.draws && y.desk.queue == t.desk.queue
            && |Markets(x.desk.queue)| + |t.desk.queue| <= t.desk.draws + 1
  {
    hide NotBefore, TapeInStep, Apply, Noted, Sorted, Stamped, ArrivalsFirst, SortedTape, Markets, Arrivals;
    MarketIsNext(sim, t, rest);
    ComparableParts(sim.desk, t.desk);
    HeadIsOneOf(sim.desk.queue);
    ArrivalsFirstTail(sim.desk.queue);
    assert Markets(sim.desk.queue[1..]) + sim.tape == rest[1..];
    SortedTail(sim.desk.queue);
    StampedTail(sim.desk.queue);
    TapeTail(rest);
    var delivered := sim.(desk := DeliverHead(setup.category, sim.desk));
    RefillLinked(delivered, rest[1..]);
    AppliedSorted(setup, sim);
    assert Comparable(delivered.desk) == Comparable(P.MarketApplied(setup.category, t, rest[0]).desk) by {
      MarketDelivered(setup.category, sim, t, rest);
    }
    ComparableFrom(delivered.desk, P.MarketApplied(setup.category, t, rest[0]).desk,
                   B.Applied(setup, sim).desk.queue, t.desk.queue);
  }

  lemma MarketDelivered<S>(category: FeeCategory, sim: B.Sim<S>, t: P.Trader<S>, rest: seq<MarketEvent>)
    requires Linked(sim, t, rest) && rest != [] && sim.desk.queue != [] && sim.desk.queue[0] == OnTape(rest[0])
    ensures Comparable(DeliverHead(category, sim.desk)) == Comparable(P.MarketApplied(category, t, rest[0]).desk)
  {
    hide Apply, Noted, Markets, TapeInStep, ArrivalsFirst, SortedTape;
    ComparableParts(sim.desk, t.desk);
    HeadIsOneOf(sim.desk.queue);
    SameDelivery(category, sim.desk.(queue := sim.desk.queue[1..]), t.desk, OnTape(rest[0]));
  }

  lemma AppliedSorted<S>(setup: B.Setup<S>, sim: B.Sim<S>)
    requires Timely(sim) && sim.desk.queue != []
    ensures Sorted(B.Applied(setup, sim).desk.queue)
  {
    AppliedTimely(setup, sim);
  }

  lemma StepParts<S>(setup: B.Setup<S>, sim: B.Sim<S>)
    requires !B.Done(sim)
    ensures var applied := B.Applied(setup, sim);
            var (desk, state, raised) :=
              Called(setup.strategy, setup.latency, applied.desk, sim.state, sim.desk.queue[0], B.HeadNumber(sim));
            var after := B.Step(setup, sim);
            after.desk == desk && after.tape == applied.tape && after.state == state && after.raised == raised
  {
  }

  /** What the backtester still has queued of the market events is no more than what it may have read ahead. */
  lemma QueuedIsReadAhead(markets: seq<MarketEvent>, tape: seq<MarketEvent>, rest: seq<MarketEvent>, d: Desk)
    requires markets + tape == rest && |markets| + |d.queue| <= d.draws + 1 && |d.queue| <= d.draws
    ensures |markets| <= |ReadAhead(rest, d)| && forall i :: 0 <= i < |markets| ==> markets[i] == ReadAhead(rest, d)[i]
  {
    assert forall i :: 0 <= i < |markets| ==> rest[i] == markets[i];
  }

  lemma FewUnderWay<S>(sim: B.Sim<S>, t: P.Trader<S>, rest: seq<MarketEvent>)
    requires Linked(sim, t, rest) && rest != []
    ensures |t.desk.queue| <= t.desk.draws
  {
    assert Markets(sim.desk.queue) != [];
  }

  lemma MarketLinked<S(!new)>(setup: B.Setup<S>, limits: Limits, sim: B.Sim<S>, t: P.Trader<S>, rest: seq<MarketEvent>,
                              nowS: real, seqNo: nat)
    requires Linked(sim, t, rest) && rest != [] && (t.desk.queue != [] ==> rest[0].ts < t.desk.queue[0].ts)
    requires ActsOnMarketOnly(setup.strategy) && Causal(setup.latency) && limits.Valid()
    requires SameToStrategy(setup.strategy, B.HeadNumber(sim), seqNo)
    requires var ticked := P.SwitchTicked(limits, P.MarketApplied(setup.category, t, rest[0]), nowS);
             var after := P.StrategyCalled(Paired(setup, limits), ticked, rest[0], seqNo).desk;
             NotOvertaken(setup.latency, t.desk.(now := after.now), after.draws, ReadAhead(rest[1..], t.desk))
    ensures var ticked := P.SwitchTicked(limits, P.MarketApplied(setup.category, t, rest[0]), nowS);
            && Linked(B.Step(setup, sim), P.StrategyCalled(Paired(setup, limits), ticked, rest[0], seqNo), rest[1..])
            && !B.Done(sim) && sim.desk.queue[0] == OnTape(rest[0])
  {
    hide B.Step, B.Applied, B.HeadNumber, P.MarketApplied, Called, Sorted, Stamped, Comparable, Markets,
         Arrivals, SortedTape, Timely, ArrivalsFirst, ReadAhead, SameToStrategy;
    MarketApplies(setup, sim, t, rest);
    var x, y := B.Applied(setup, sim), P.MarketApplied(setup.category, t, rest[0]);
    FewUnderWay(sim, t, rest);
    QueuedIsReadAhead(Markets(x.desk.queue), x.tape, rest[1..], t.desk);
    CalledAtOnce(setup, y.desk, sim.state, OnTape(rest[0]), seqNo);
    SameNow(x.desk, y.desk);
    StepParts(setup, sim);
    SameCall(setup, x.desk, y.desk, sim.state, OnTape(rest[0]), B.HeadNumber(sim), seqNo, Markets(x.desk.queue));
    NeverRaises(setup, x.desk, sim.state, OnTape(rest[0]), B.HeadNumber(sim));
    StepTimely(setup, sim);
  }

  lemma SameNow(a: Desk, b: Desk)
    requires Comparable(a) == Comparable(b)
    ensures a.now == b.now
  {
    ComparableParts(a, b);
  }

  lemma CalledAtOnce<S>(setup: B.Setup<S>, d: Desk, state: S, e: Timed, seqNo: nat)
    ensures Called(setup.strategy, setup.latency, d, state, e, seqNo).0.now == d.now
  {
    ActionsDraw(setup.latency, d, Allowed(setup.strategy.onEvent(state, ViewOf(d), e, seqNo).actions));
  }

  lemma NeverRaises<S(!new)>(setup: B.Setup<S>, d: Desk, state: S, e: Timed, seqNo: nat)
    requires ActsOnMarketOnly(setup.strategy)
    ensures !Called(setup.strategy, setup.latency, d, state, e, seqNo).2
  {
  }

  // ---------- draining ----------

  /** Draining up to the next market event takes the backtester to that event. */
  lemma {:induction false} DrainLinked<S(!new)>(setup: B.Setup<S>, sim: B.Sim<S>, t: P.Trader<S>,
                                                rest: seq<MarketEvent>) returns (n: nat)
    requires Linked(sim, t, rest) && rest != []
    requires ActsOnMarketOnly(setup.strategy) && Causal(setup.latency)
    ensures var drained := P.Drained(setup.category, t, rest[0].ts);
            && Linked(B.After(setup, sim, n), drained, rest)
            && (drained.desk.queue != [] ==> rest[0].ts < drained.desk.queue[0].ts)
            && drained.switch == t.switch && drained.seqCounter == t.seqCounter
    ensures t.desk.queue == [] ==> n == 0
    decreases |t.desk.queue|
  {
    hide Linked, B.Step, Apply;
    if t.desk.queue == [] || t.desk.queue[0].ts > rest[0].ts {
      n := 0;
    } else {
      ArrivalLinked(setup, sim, t, rest);
      var m := DrainLinked(setup, B.Step(setup, sim), P.DrainOne(setup.category, t), rest);
      n := m + 1;
      B.AfterSplits(setup, sim, 1, n);
      assert B.After(setup, sim, 1) == B.Step(setup, B.After(setup, sim, 0));
    }
  }

  /** A whole feed message, unless it trips the switch. */
  lemma EventLinked<S(!new)>(setup: B.Setup<S>, limits: Limits, sim: B.Sim<S>, t: P.Trader<S>, rest: seq<MarketEvent>,
                             nowS: real)
    returns (n: nat)
    requires Linked(sim, t, rest) && rest != []
    requires ActsOnMarketOnly(setup.strategy) && Causal(setup.latency) && limits.Valid()
    requires IgnoresNumbers(setup.strategy) || (t.desk.queue == [] && t.seqCounter == B.HeadNumber(sim))
    requires var drained := P.Drained(setup.category, t, rest[0].ts).desk;
             var after := P.EventProcessed(Paired(setup, limits), t, rest[0], nowS).desk;
             NotOvertaken(setup.latency, drained.(now := after.now), after.draws, ReadAhead(rest[1..], drained))
    requires !P.EventProcessed(Paired(setup, limits), t, rest[0], nowS).switch.halted
    ensures n > 0 && Linked(B.After(setup, sim, n), P.EventProcessed(Paired(setup, limits), t, rest[0], nowS),
                            rest[1..])
    ensures var before := B.After(setup, sim, n - 1); !B.Done(before) && before.desk.queue[0] == OnTape(rest[0])
  {
    hide Linked, B.Step, P.Drained, P.MarketApplied, P.SwitchTicked, P.StrategyCalled, NotOvertaken, ReadAhead,
         B.HeadNumber;
    var m := DrainLinked(setup, sim, t, rest);
    var drained := P.Drained(setup.category, t, rest[0].ts);
    MarketLinked(setup, limits, B.After(setup, sim, m), drained, rest, nowS, drained.seqCounter);
    var ticked := P.SwitchTicked(limits, P.MarketApplied(setup.category, drained, rest[0]), nowS);
    n := m + 1;
  }

  // ---------- whole runs ----------

  lemma OtherInputsLinked<S>(setup: B.Setup<S>, limits: Limits, sim: B.Sim<S>, t: P.Trader<S>, rest: seq<MarketEvent>,
                             input: P.Input)
    requires Linked(sim, t, rest) && !input.MarketMessage? && limits.Valid()
    requires !P.Handle(Paired(setup, limits), t, input).switch.halted
    ensures Linked(sim, P.Handle(Paired(setup, limits), t, input), rest)
    ensures var after := P.Handle(Paired(setup, limits), t, input);
            after.desk == t.desk && after.seqCounter == t.seqCounter
  {
  }

  lemma NotedLinked<S>(sim: B.Sim<S>, t: P.Trader<S>, rest: seq<MarketEvent>, receivedS: real)
    requires Linked(sim, t, rest)
    ensures Linked(sim, t.(switch := MessageNoted(t.switch, receivedS)), rest)
  {
  }

  lemma NothingYet<S>(book: Book, tape: seq<MarketEvent>, state: S)
    ensures var unprimed := B.Unprimed(book, tape, state);
            && Markets(unprimed.desk.queue) + tape == tape && Sorted(unprimed.desk.queue)
               && Stamped(unprimed.desk.queue)
            && Arrivals(unprimed.desk.queue) == []
  {
  }

  lemma StartLinked<S>(book: Book, tape: seq<MarketEvent>, state: S)
    requires SortedTape(tape)
    ensures Linked(B.Start(book, tape, state), P.Fresh(book, state), tape)
  {
    hide Timely, SortedTape, Stamped, Markets, Enqueue, Sorted;
    var unprimed := B.Unprimed(book, tape, state);
    NothingYet(book, tape, state);
    RefilledTimely(unprimed);
    RefillLinked(unprimed, tape);
  }

  lemma HandleLatches<S>(setup: P.PaperSetup<S>, book: Book, state: S, inputs: seq<P.Input>)
    requires setup.limits.Valid() && Wf(book) && book.orders == [] && inputs != []
    requires !P.After(setup, P.Fresh(book, state), inputs).switch.halted
    ensures !P.After(setup, P.Fresh(book, state), inputs[..|inputs| - 1]).switch.halted
  {
    hide P.Handle, P.Fresh, AtRest;
    var before := P.After(setup, P.Fresh(book, state), inputs[..|inputs| - 1]);
    AlwaysAtRest(setup, book, state, inputs[..|inputs| - 1]);
    if before.switch.halted {
      HaltedTurnFrozen(setup, before, inputs[|inputs| - 1]);
    }
  }

  lemma FirstNumber<S>(book: Book, tape: seq<MarketEvent>, state: S)
    requires tape != []
    ensures B.HeadNumber(B.Start(book, tape, state)) == 0
  {
  }

  lemma {:induction false} EnginesLinked<S(!new)>(setup: B.Setup<S>, limits: Limits, book: Book, tape: seq<MarketEvent>,
                                                  state: S, inputs: seq<P.Input>) returns (n: nat)
    requires limits.Valid() && Wf(book) && book.orders == [] && SortedTape(tape) && Causal(setup.latency)
    requires ActsOnMarketOnly(setup.strategy) && (IgnoresNumbers(setup.strategy) || |tape| <= 1)
    requires |EventsOf(inputs)| <= |tape| && EventsOf(inputs) == tape[..|EventsOf(inputs)|]
    requires NoneOvertaken(Paired(setup, limits), P.Fresh(book, state), tape, inputs)
    requires !P.After(Paired(setup, limits), P.Fresh(book, state), inputs).switch.halted
    ensures Linked(B.After(setup, B.Start(book, tape, state), n),
                   P.After(Paired(setup, limits), P.Fresh(book, state), inputs), tape[|EventsOf(inputs)|..])
    ensures EventsOf(inputs) == [] ==>
              var t := P.After(Paired(setup, limits), P.Fresh(book, state), inputs);
              n == 0 && t.seqCounter == 0 && t.desk.queue == []
  {
    hide Linked, B.Step, B.Start, P.EventProcessed, NotOvertaken, ReadAhead, SortedTape, ActsOnMarketOnly, Wf,
         IgnoresNumbers, B.HeadNumber, P.Drained;
    var psetup := Paired(setup, limits);
    if inputs == [] {
      StartLinked(book, tape, state);
      assert tape[0..] == tape;
      n := 0;
    } else {
      var init, last := inputs[..|inputs| - 1], inputs[|inputs| - 1];
      HandleLatches(psetup, book, state, inputs);
      var k := |EventsOf(init)|;
      assert EventsOf(init) == tape[..k];
      var m := EnginesLinked(setup, limits, book, tape, state, init);
      var sim, t := B.After(setup, B.Start(book, tape, state), m), P.After(psetup, P.Fresh(book, state), init);
      hide P.Fresh;
      if last.MarketMessage? {
        assert tape[k..][0] == last.event && tape[k..][1..] == tape[k + 1..];
        assert tape[k + 1..] == tape[|EventsOf(inputs)|..];
        NotedLinked(sim, t, tape[k..], last.receivedS);
        DrainIgnoresSwitch(setup.category, t, MessageNoted(t.switch, last.receivedS), last.event.ts);
        if k == 0 { FirstNumber(book, tape, state); }
        var l := EventLinked(setup, limits, sim, t.(switch := MessageNoted(t.switch, last.receivedS)), tape[k..],
                             last.tickedS);
        n := m + l;
        B.AfterSplits(setup, B.Start(book, tape, state), m, n);
      } else {
        OtherInputsLinked(setup, limits, sim, t, tape[k..], last);
        n := m;
      }
    }
  }

  /** Same book, accounts, orders, strategy state and clock, and the same events still to come. */
  ghost predicate SameState<S>(sim: B.Sim<S>, t: P.Trader<S>, rest: seq<MarketEvent>) {
    && sim.desk.core.book == t.desk.core.book && sim.desk.core.account == t.desk.core.account
    && sim.desk.core.pending == t.desk.core.pending && sim.desk.history.placed == t.desk.history.placed
    && sim.state == t.state && sim.desk.now == t.desk.now
    && Arrivals(sim.desk.queue) == t.desk.queue
    && Markets(sim.desk.queue) + sim.tape == rest
  }

  lemma LinkedIsSame<S>(sim: B.Sim<S>, t: P.Trader<S>, rest: seq<MarketEvent>)
    requires Linked(sim, t, rest)
    ensures SameState(sim, t, rest)
  {
    hide Timely, Stamped, ArrivalsFirst, SortedTape;
    ComparableParts(sim.desk, t.desk);
    assert sim.desk.history.(calls := []).placed == t.desk.history.(calls := []).placed;
  }

  /**
   The two engines agree. Take any interleaving of feed messages, foreign messages, watchdog turns and
   stop requests whose market events are a prefix of the tape and that has not tripped the switch. The
   backtest of the tape passes through a state in which it has handled exactly the same market events
   and has the same book, fills, cash, inventory, pending orders, placed orders and strategy state.
   */
  lemma EnginesAgree<S(!new)>(setup: B.Setup<S>, limits: Limits, book: Book, tape: seq<MarketEvent>, state: S,
                              inputs: seq<P.Input>) returns (n: nat)
    requires limits.Valid() && Wf(book) && book.orders == [] && SortedTape(tape) && Causal(setup.latency)
    requires ActsOnMarketOnly(setup.strategy) && (IgnoresNumbers(setup.strategy) || |tape| <= 1)
    requires |EventsOf(inputs)| <= |tape| && EventsOf(inputs) == tape[..|EventsOf(inputs)|]
    requires NoneOvertaken(Paired(setup, limits), P.Fresh(book, state), tape, inputs)
    requires !P.After(Paired(setup, limits), P.Fresh(book, state), inputs).switch.halted
    ensures SameState(B.After(setup, B.Start(book, tape, state), n),
                      P.After(Paired(setup, limits), P.Fresh(book, state), inputs), tape[|EventsOf(inputs)|..])
  {
    hide Linked, SameState;
    n := EnginesLinked(setup, limits, book, tape, state, inputs);
    LinkedIsSame(B.After(setup, B.Start(book, tape, state), n),
                 P.After(Paired(setup, limits), P.Fresh(book, state), inputs), tape[|EventsOf(inputs)|..]);
  }

  /** What was scheduled during the callback is on the queue. */
  lemma {:induction false} ActionsAreQueued(latency: Latency, d: Desk, actions: seq<Action>, m: nat)
    requires (forall i :: 0 <= i < |actions| ==> Acceptable(actions[i])) && d.draws <= m < d.draws + |actions|
    ensures exists x :: x in PerformAll(latency, d, actions).queue && x.ts == latency(m, d.now)
  {
    var init, last := actions[..|actions| - 1], actions[|actions| - 1];
    var before := PerformAll(latency, d, init);
    var e := ActionEvent(latency, before, last);
    ActionsDraw(latency, d, init);
    EnqueuedMembers(before.queue, e);
    if m == d.draws + |init| {
      assert e in Enqueue(before.queue, e);
    } else {
      ActionsAreQueued(latency, d, init, m);
      var x :| x in before.queue && x.ts == latency(m, d.now);
      assert x in Enqueue(before.queue, e);
    }
  }

  lemma NoTieThenNotOvertaken<S>(setup: P.PaperSetup<S>, t: P.Trader<S>, event: MarketEvent, nowS: real,
                                 rest: seq<MarketEvent>)
    requires setup.limits.Valid() && !P.EventProcessed(setup, t, event, nowS).switch.halted
    requires NoTieWith(P.EventProcessed(setup, t, event, nowS).desk.queue, rest)
    ensures var drained, after := P.Drained(setup.category, t, event.ts).desk,
                P.EventProcessed(setup, t, event, nowS).desk;
            NotOvertaken(setup.latency, drained.(now := after.now), after.draws, ReadAhead(rest, drained))
  {
    hide P.Drained, Apply, Noted, P.IdsAfter, Ticked;
    var drained := P.Drained(setup.category, t, event.ts);
    var d := P.SwitchTicked(setup.limits, P.MarketApplied(setup.category, drained, event), nowS).desk;
    var after := P.EventProcessed(setup, t, event, nowS).desk;
    var actions := Allowed(setup.strategy.onEvent(drained.state, ViewOf(d), OnTape(event), drained.seqCounter).actions);
    ActionsDraw(setup.latency, d, actions);
    var ahead := ReadAhead(rest, drained.desk);
    forall m: nat, i | drained.desk.draws <= m < after.draws && 0 <= i < |ahead|
      ensures ahead[i].ts != setup.latency(m, after.now)
    {
      ActionsAreQueued(setup.latency, d, actions, m);
      assert ahead[i] == rest[i];
    }
  }

  /** When no arrival is ever under way at the time of an event still to come, none is overtaken. */
  lemma {:induction false} NoTieSuffices<S>(setup: P.PaperSetup<S>, book: Book, state: S, tape: seq<MarketEvent>,
                                            inputs: seq<P.Input>)
    requires setup.limits.Valid() && Wf(book) && book.orders == []
    requires |EventsOf(inputs)| <= |tape| && EventsOf(inputs) == tape[..|EventsOf(inputs)|]
    requires NoTieInRun(setup, P.Fresh(book, state), tape, inputs)
    requires !P.After(setup, P.Fresh(book, state), inputs).switch.halted
    ensures NoneOvertaken(setup, P.Fresh(book, state), tape, inputs)
  {
    hide P.Fresh, P.EventProcessed, NotOvertaken, ReadAhead, NoTieWith, Wf, P.Drained;
    if inputs != [] {
      var init, last := inputs[..|inputs| - 1], inputs[|inputs| - 1];
      assert EventsOf(init) == tape[..|EventsOf(init)|];
      HandleLatches(setup, book, state, inputs);
      NoTieSuffices(setup, book, state, tape, init);
      if last.MarketMessage? {
        var t := P.After(setup, P.Fresh(book, state), init);
        var s := MessageNoted(t.switch, last.receivedS);
        DrainIgnoresSwitch(setup.category, t, s, last.event.ts);
        NoTieThenNotOvertaken(setup, t.(switch := s), last.event, last.tickedS, tape[|EventsOf(inputs)|..]);
      }
    }
  }

  /** The quoting strategies qualify, as long as what they observe on arrivals leaves no trace. */
  lemma QuotersActOnMarketOnly<I(!new)>(quoter: Quoter<I>)
    requires quoter.requoteKinds <= DEFAULT_KINDS
    requires forall inner: I, view: View, e: Timed :: !e.payload.Market? ==> quoter.observe(inner, view, e) == inner
    ensures ActsOnMarketOnly(AsStrategy(quoter))
  {
    var strategy := AsStrategy(quoter);
    forall state: QuoteState<I>, view: View, e: Timed, n: nat
      ensures !Raises(strategy.onEvent(state, view, e, n).actions)
      ensures !e.payload.Market? ==> strategy.onEvent(state, view, e, n) == Reply(state, [])
    {
      QuoterIsWellBehaved(quoter, state, view, e);
    }
  }
}
