/**
 When every action takes the same delay, which ties matter can be read off the tape: if it has no
 harmful pair of events, the two engines agree on every run.
 */
module ConstantDelay {
  import opened OrderBook
  import opened BookInvariant
  import opened Fees
  import opened TradingDesk
  import opened DeskInvariant
  import opened EventOrder
  import opened KillSwitches
  import opened HaltProtocol
  import opened EngineEquivalence
  import B = Backtest
  import P = Paper

  /** No market event falls exactly one delay after an earlier one. */
  ghost predicate NoEcho(tape: seq<MarketEvent>, delay: nat) {
    forall i, j :: 0 <= i < j < |tape| ==> tape[j].ts != tape[i].ts + delay
  }

  /** Every arrival under way was decided at one of these events. */
  ghost predicate DecidedAt(queue: seq<Timed>, events: seq<MarketEvent>, delay: nat) {
    forall x :: x in queue ==> exists i :: 0 <= i < |events| && x.ts == events[i].ts + delay
  }

  lemma {:induction false} DrainedSubset<S>(category: FeeCategory, t: P.Trader<S>, ts: Millis)
    requires t.desk.now <= ts
    ensures var after := P.Drained(category, t, ts);
            after.desk.now <= ts && forall x :: x in after.desk.queue ==> x in t.desk.queue
    decreases |t.desk.queue|
  {
    if t.desk.queue != [] && t.desk.queue[0].ts <= ts {
      DrainedOne(category, t, ts);
      DrainedSubset(category, P.DrainOne(category, t), ts);
    }
  }

  lemma DrainedOne<S>(category: FeeCategory, t: P.Trader<S>, ts: Millis)
    requires t.desk.queue != [] && t.desk.queue[0].ts <= ts && t.desk.now <= ts
    ensures P.DrainOne(category, t).desk.queue == t.desk.queue[1..] && P.DrainOne(category, t).desk.now <= ts
  {
    hide Apply, Noted, P.IdsAfter;
    assert P.Due(t.desk).queue[1..] == t.desk.queue[1..];
  }

  lemma {:induction false} ActionsDecidedAt(latency: Latency, delay: nat, d: Desk, actions: seq<Action>,
                                            events: seq<MarketEvent>)
    requires Constant(latency, delay) && (forall i :: 0 <= i < |actions| ==> Acceptable(actions[i]))
    requires events != [] && d.now == events[|events| - 1].ts && DecidedAt(d.queue, events, delay)
    ensures var after := PerformAll(latency, d, actions); after.now == d.now && DecidedAt(after.queue, events, delay)
  {
    if actions != [] {
      var before, a := PerformAll(latency, d, actions[..|actions| - 1]), actions[|actions| - 1];
      ActionsDecidedAt(latency, delay, d, actions[..|actions| - 1], events);
      var e := ActionEvent(latency, before, a);
      EnqueuedMembers(before.queue, e);
      assert e.ts == events[|events| - 1].ts + delay;
    }
  }

  /** The trader's clock stands at the last event, and what is under way was decided at one of them. */
  ghost predicate InStep<S>(t: P.Trader<S>, events: seq<MarketEvent>, delay: nat) {
    && DecidedAt(t.desk.queue, events, delay)
    && t.desk.now == if events == [] then 0 else events[|events| - 1].ts
  }

  lemma EventInStep<S>(setup: P.PaperSetup<S>, t: P.Trader<S>, events: seq<MarketEvent>, delay: nat, event: MarketEvent,
                       nowS: real)
    requires setup.limits.Valid() && Constant(setup.latency, delay) && InStep(t, events, delay)
    requires events != [] ==> events[|events| - 1].ts <= event.ts
    ensures InStep(P.EventProcessed(setup, t, event, nowS), events + [event], delay)
  {
    hide Apply, Noted, P.IdsAfter, Ticked, P.Drained, Allowed, PerformAll;
    DrainedSubset(setup.category, t, event.ts);
    var drained := P.Drained(setup.category, t, event.ts);
    var all := events + [event];
    forall x | x in drained.desk.queue ensures exists i :: 0 <= i < |all| && x.ts == all[i].ts + delay {
      var i :| 0 <= i < |events| && x.ts == events[i].ts + delay;
      assert all[i] == events[i];
    }
    var ticked := P.SwitchTicked(setup.limits, P.MarketApplied(setup.category, drained, event), nowS);
    ActionsDecidedAt(setup.latency, delay, ticked.desk,
                     Allowed(setup.strategy.onEvent(ticked.state, ViewOf(ticked.desk), OnTape(event),
                                                    drained.seqCounter).actions), all);
  }

  lemma {:induction false} RunInStep<S>(setup: P.PaperSetup<S>, book: Book, state: S, tape: seq<MarketEvent>,
                                        delay: nat,
                                        inputs: seq<P.Input>)
    requires setup.limits.Valid() && Constant(setup.latency, delay) && SortedTape(tape)
    requires |EventsOf(inputs)| <= |tape| && EventsOf(inputs) == tape[..|EventsOf(inputs)|]
    ensures InStep(P.After(setup, P.Fresh(book, state), inputs), EventsOf(inputs), delay)
  {
    if inputs != [] {
      var init, last := inputs[..|inputs| - 1], inputs[|inputs| - 1];
      var k := |EventsOf(init)|;
      assert EventsOf(init) == tape[..k];
      RunInStep(setup, book, state, tape, delay, init);
      var t := P.After(setup, P.Fresh(book, state), init);
      if last.MarketMessage? {
        assert EventsOf(inputs)[k] == last.event == tape[k];
        EventInStep(setup, t.(switch := MessageNoted(t.switch, last.receivedS)), EventsOf(init), delay, last.event,
                    last.tickedS);
      }
    }
  }

  /** On such a tape no arrival is ever under way at the time of a market event still to come. */
  lemma {:induction false} NoEchoNoTie<S>(setup: P.PaperSetup<S>, book: Book, state: S, tape: seq<MarketEvent>,
                                          delay: nat,
                                          inputs: seq<P.Input>)
    requires setup.limits.Valid() && Constant(setup.latency, delay) && SortedTape(tape) && NoEcho(tape, delay)
    requires |EventsOf(inputs)| <= |tape| && EventsOf(inputs) == tape[..|EventsOf(inputs)|]
    ensures NoTieInRun(setup, P.Fresh(book, state), tape, inputs)
  {
    hide P.Handle, P.Fresh;
    RunInStep(setup, book, state, tape, delay, inputs);
    var k, queue := |EventsOf(inputs)|, P.After(setup, P.Fresh(book, state), inputs).desk.queue;
    forall x, j | x in queue && 0 <= j < |tape[k..]| ensures x.ts != tape[k..][j].ts {
      var i :| 0 <= i < k && x.ts == EventsOf(inputs)[i].ts + delay;
      assert tape[k..][j] == tape[k + j] && EventsOf(inputs)[i] == tape[i];
    }
    if inputs != [] {
      var init := inputs[..|inputs| - 1];
      assert EventsOf(init) == tape[..|EventsOf(init)|];
      NoEchoNoTie(setup, book, state, tape, delay, init);
    }
  }

  /**
   Event `i` can schedule an arrival for the very time of event `j` while the backtester already has
   `j` off the tape: `j` is the next event, which it always has, or arrivals handled before `i` - the
   first of them at the earliest one delay after the first event - have each pulled one more.
   */
  ghost predicate Harmful(tape: seq<MarketEvent>, delay: nat, i: nat, j: nat) {
    && i < j < |tape| && tape[j].ts == tape[i].ts + delay
    && (j == i + 1 || (i >= 1 && tape[0].ts + delay <= tape[i].ts))
  }

  ghost predicate NoHarm(tape: seq<MarketEvent>, delay: nat) {
    forall i: nat, j: nat :: !Harmful(tape, delay, i, j)
  }

  lemma NoEchoNoHarm(tape: seq<MarketEvent>, delay: nat)
    requires NoEcho(tape, delay)
    ensures NoHarm(tape, delay)
  {
  }

  /** No arrival has been handled, or the clock is at least one delay past the first event. */
  ghost predicate Pace(d: Desk, events: seq<MarketEvent>, delay: nat) {
    && |d.queue| <= d.draws && (events == [] ==> d.draws == 0)
    && (|d.queue| < d.draws ==> events[0].ts + delay <= d.now)
  }

  lemma DrainOneKeepsPace<S>(category: FeeCategory, t: P.Trader<S>, events: seq<MarketEvent>, delay: nat)
    requires t.desk.queue != [] && Pace(t.desk, events, delay) && DecidedAt(t.desk.queue, events, delay)
             && SortedTape(events)
    ensures Pace(P.DrainOne(category, t).desk, events, delay)
    ensures DecidedAt(P.DrainOne(category, t).desk.queue, events, delay)
  {
    hide Apply, Noted, P.IdsAfter;
    assert P.Due(t.desk).queue[1..] == t.desk.queue[1..];
    assert t.desk.queue[0] in t.desk.queue;
    var i :| 0 <= i < |events| && t.desk.queue[0].ts == events[i].ts + delay;
    assert i > 0 ==> events[0].ts <= events[i].ts;
  }

  lemma {:induction false} DrainedKeepsPace<S>(category: FeeCategory, t: P.Trader<S>, ts: Millis,
                                               events: seq<MarketEvent>, delay: nat)
    requires Pace(t.desk, events, delay) && DecidedAt(t.desk.queue, events, delay) && SortedTape(events)
    ensures Pace(P.Drained(category, t, ts).desk, events, delay)
    decreases |t.desk.queue|
  {
    hide Pace, DecidedAt, SortedTape;
    if t.desk.queue != [] && t.desk.queue[0].ts <= ts {
      DrainOneKeepsPace(category, t, events, delay);
      DrainedOneShorter(category, t);
      DrainedKeepsPace(category, P.DrainOne(category, t), ts, events, delay);
    }
  }

  lemma DrainedOneShorter<S>(category: FeeCategory, t: P.Trader<S>)
    requires t.desk.queue != []
    ensures |P.DrainOne(category, t).desk.queue| == |t.desk.queue| - 1
  {
    hide Apply, Noted, P.IdsAfter;
  }

  lemma EventKeepsPace<S>(setup: P.PaperSetup<S>, t: P.Trader<S>, events: seq<MarketEvent>, delay: nat,
                          event: MarketEvent, nowS: real)
    requires setup.limits.Valid() && InStep(t, events, delay) && Pace(t.desk, events, delay)
    requires SortedTape(events) && (events != [] ==> events[|events| - 1].ts <= event.ts)
    requires !P.EventProcessed(setup, t, event, nowS).switch.halted
    ensures var drained, after := P.Drained(setup.category, t, event.ts).desk,
                P.EventProcessed(setup, t, event, nowS).desk;
            && Pace(drained, events, delay) && drained.now <= event.ts && after.now == event.ts
            && Pace(after, events + [event], delay)
  {
    hide Apply, Noted, P.IdsAfter, Ticked, P.Drained, Allowed, PerformAll;
    DrainedSubset(setup.category, t, event.ts);
    DrainedKeepsPace(setup.category, t, event.ts, events, delay);
    var drained := P.Drained(setup.category, t, event.ts);
    var ticked := P.SwitchTicked(setup.limits, P.MarketApplied(setup.category, drained, event), nowS);
    ActionsDraw(setup.latency, ticked.desk,
                Allowed(setup.strategy.onEvent(ticked.state, ViewOf(ticked.desk), OnTape(event),
                                               drained.seqCounter).actions));
  }

  /** What was read ahead of event `k` cannot tie with an arrival decided at it. */
  lemma ReadAheadIsClear(latency: Latency, delay: nat, tape: seq<MarketEvent>, k: nat, drained: Desk, later: nat)
    requires Constant(latency, delay) && NoHarm(tape, delay) && k < |tape|
    requires Pace(drained, tape[..k], delay) && drained.now <= tape[k].ts
    ensures NotOvertaken(latency, drained.(now := tape[k].ts), later, ReadAhead(tape[k + 1..], drained))
  {
    var ahead := ReadAhead(tape[k + 1..], drained);
    forall m: nat, i | drained.draws <= m < later && 0 <= i < |ahead| ensures ahead[i].ts != latency(m, tape[k].ts) {
      assert ahead[i] == tape[k + 1..][i] == tape[k + 1 + i];
      assert !Harmful(tape, delay, k, k + 1 + i);
    }
  }

  lemma {:induction false} NoHarmNoneOvertaken<S>(setup: P.PaperSetup<S>, book: Book, state: S, tape: seq<MarketEvent>,
                                                  delay: nat, inputs: seq<P.Input>)
    requires setup.limits.Valid() && Constant(setup.latency, delay) && SortedTape(tape) && NoHarm(tape, delay)
    requires Wf(book) && book.orders == []
    requires |EventsOf(inputs)| <= |tape| && EventsOf(inputs) == tape[..|EventsOf(inputs)|]
    requires !P.After(setup, P.Fresh(book, state), inputs).switch.halted
    ensures NoneOvertaken(setup, P.Fresh(book, state), tape, inputs)
    ensures Pace(P.After(setup, P.Fresh(book, state), inputs).desk, EventsOf(inputs), delay)
  {
    hide P.EventProcessed, NotOvertaken, ReadAhead, Wf, P.Drained, Pace, InStep, NoHarm, SortedTape, Constant;
    if inputs == [] {
      FreshPace(book, state, delay);
    } else {
      var init, last := inputs[..|inputs| - 1], inputs[|inputs| - 1];
      var k := |EventsOf(init)|;
      assert EventsOf(init) == tape[..k];
      HandleLatches(setup, book, state, inputs);
      NoHarmNoneOvertaken(setup, book, state, tape, delay, init);
      RunInStep(setup, book, state, tape, delay, init);
      var t := P.After(setup, P.Fresh(book, state), init);
      hide P.Fresh;
      if last.MarketMessage? {
        assert EventsOf(inputs)[k] == last.event == tape[k];
        var s := MessageNoted(t.switch, last.receivedS);
        DrainIgnoresSwitch(setup.category, t, s, last.event.ts);
        PrefixSorted(tape, k);
        SwitchInStep(t, s, EventsOf(init), delay);
        EventKeepsPace(setup, t.(switch := s), EventsOf(init), delay, last.event, last.tickedS);
        ReadAheadIsClear(setup.latency, delay, tape, k, P.Drained(setup.category, t, last.event.ts).desk,
                         P.After(setup, P.Fresh(book, state), inputs).desk.draws);
      } else {
        OtherInputsKeepDesk(setup, t, last);
      }
    }
  }

  lemma FreshPace<S>(book: Book, state: S, delay: nat)
    ensures Pace(P.Fresh(book, state).desk, [], delay)
  {
  }

  lemma SwitchInStep<S>(t: P.Trader<S>, s: Switch, events: seq<MarketEvent>, delay: nat)
    requires InStep(t, events, delay)
    ensures InStep(t.(switch := s), events, delay)
  {
  }

  lemma PrefixSorted(tape: seq<MarketEvent>, k: nat)
    requires SortedTape(tape) && k < |tape|
    ensures SortedTape(tape[..k]) && (k > 0 ==> tape[..k][k - 1].ts <= tape[k].ts)
  {
  }

  lemma OtherInputsKeepDesk<S>(setup: P.PaperSetup<S>, t: P.Trader<S>, input: P.Input)
    requires setup.limits.Valid() && !input.MarketMessage? && !P.Handle(setup, t, input).switch.halted
    ensures P.Handle(setup, t, input).desk == t.desk
  {
  }

  /**
   The two engines agree, under a condition on the tape alone: it has no harmful pair. What a harmful
   pair does is in HarmfulTies.
   */
  lemma EnginesAgreeOnTape<S(!new)>(setup: B.Setup<S>, limits: Limits, book: Book, tape: seq<MarketEvent>, state: S,
                                    delay: nat, inputs: seq<P.Input>) returns (n: nat)
    requires limits.Valid() && Wf(book) && book.orders == [] && SortedTape(tape)
    requires Constant(setup.latency, delay) && NoHarm(tape, delay)
    requires ActsOnMarketOnly(setup.strategy) && (IgnoresNumbers(setup.strategy) || |tape| <= 1)
    requires |EventsOf(inputs)| <= |tape| && EventsOf(inputs) == tape[..|EventsOf(inputs)|]
    requires !P.After(Paired(setup, limits), P.Fresh(book, state), inputs).switch.halted
    ensures SameState(B.After(setup, B.Start(book, tape, state), n),
                      P.After(Paired(setup, limits), P.Fresh(book, state), inputs), tape[|EventsOf(inputs)|..])
  {
    hide B.After, B.Start, P.After, P.Fresh, SortedTape, NoHarm, ActsOnMarketOnly, NoneOvertaken, SameState;
    NoHarmNoneOvertaken(Paired(setup, limits), book, state, tape, delay, inputs);
    n := EnginesAgree(setup, limits, book, tape, state, inputs);
  }
}
