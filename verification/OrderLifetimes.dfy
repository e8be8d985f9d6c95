/**
 The fill bracket over a whole backtest: from the step that brings an order to rest until its cancel
 arrives, however the run goes on - and for a quoting strategy, which is alone at its level by itself.
 */
module OrderLifetimes {
  import opened Prelude
  import opened OrderBook
  import opened BookInvariant
  import opened TradePriority
  import opened BookRuns
  import opened FillBracket
  import opened Fees
  import opened TradingDesk
  import opened DeskInvariant
  import opened EventOrder
  import opened BacktestRuns
  import opened Quoting
  import opened OneOrderPerSide
  import B = Backtest

  predicate IsTrade(e: Timed) {
    e.payload.Market? && e.payload.event.LastTrade?
  }

  function TradeOp(e: Timed): BookOp
    requires IsTrade(e)
  {
    Trade(e.payload.event.price, e.payload.event.size, e.payload.event.side, e.payload.event.ts)
  }

  /** The volume an event trades within reach of an order resting there. */
  function EventVolume(core: Core, e: Timed, side: Side, price: real): real {
    if IsTrade(e) then VolumeAt(core.book, TradeOp(e), side, price) else 0.0
  }

  /** While the order rests, a trade at its level reaches no other order of ours. */
  ghost predicate Alone(core: Core, e: Timed, id: OrderId, side: Side, price: real) {
    IsTrade(e) && Tracks(core.book.orders, id) ==> Undisturbed(core.book, TradeOp(e), id, side, price)
  }

  lemma OrdersUntouched(category: FeeCategory, core: Core, e: Timed, id: OrderId)
    requires !IsTrade(e) && e.payload != CancelArrival(id) && id !in core.pending
    ensures Find(Apply(category, core, e).book.orders, id) == Find(core.book.orders, id)
  {
    match e.payload
    case Market(event) => ChangesLeaveOrders(core.book, if event.PriceChange? then event.changes else []);
    case PlaceArrival(p) =>
      var after := ApplyPlace(category, core, p, e.ts).book;
      if after != core.book {
        var added := after.orders[|after.orders| - 1];
        assert added.id == p.id != id && after.orders == core.book.orders + [added];
        FindConcat(core.book.orders, [added], id);
      }
    case CancelArrival(other) => WithoutKeepsOthers(core.book.orders, other, id);
  }

  lemma {:induction false} ChangesLeaveOrders(book: Book, changes: seq<PriceLevelChange>)
    ensures ApplyChanges(book, changes).orders == book.orders
  {
    if changes != [] { ChangesLeaveOrders(book, changes[..|changes| - 1]); }
  }

  /** Once an order is filled completely, further trades at its level change nothing in the bracket. */
  lemma GoneStaysBracketed(side: Side, price: real, queue: real, size: real, traded: real, filled: real, more: Volume,
                           public: real)
    requires Bracketed(None, side, price, queue, size, traded, filled)
    ensures Bracketed(None, side, price, queue, size, traded + more, filled)
    ensures Exact(None, queue, size, traded, filled, public) ==> Exact(None, queue, size, traded + more, filled, public)
  {
  }

  /** One event in the life of an order, cancel and re-use of its id excepted. */
  lemma EventKeepsBracket(category: FeeCategory, core: Core, e: Timed, id: OrderId, side: Side, price: real,
                          queue: real, size: real, traded: real, filled: real)
    requires Wf(core.book) && queue >= 0.0 && size > 0.0 && traded >= 0.0
    requires e.payload != CancelArrival(id) && id !in core.pending && Alone(core, e, id, side, price)
    requires Bracketed(Find(core.book.orders, id), side, price, queue, size, traded, filled)
    ensures var after := Apply(category, core, e).book;
            && EventVolume(core, e, side, price) >= 0.0
            && Bracketed(Find(after.orders, id), side, price, queue, size,
                         traded + EventVolume(core, e, side, price), filled + Gain(core, e, id))
            && (Exact(Find(core.book.orders, id), queue, size, traded, filled, PublicAt(core.book, side, price))
                && PublicAt(core.book, side, price) <= PublicAt(after, side, price) ==>
                  Exact(Find(after.orders, id), queue, size, traded + EventVolume(core, e, side, price),
                        filled + Gain(core, e, id), PublicAt(after, side, price)))
  {
    if IsTrade(e) {
      var event := e.payload.event;
      assert Apply(category, core, e).book == ApplyOp(core.book, TradeOp(e));
      if Tracks(core.book.orders, id) {
        hide Apply, ApplyOp, Traded, Bracketed, Exact;
        OpKeepsBracket(core.book, TradeOp(e), id, side, price, queue, size, traded, filled);
      } else {
        hide Apply, Bracketed, Exact;
        UnreachedUntouched(core.book.orders, PrintOf(core.book, event.price, event.side, event.ts), event.size, map[],
                           id);
        GoneStaysBracketed(side, price, queue, size, traded, filled, event.size, PublicAt(core.book, side, price));
      }
    } else {
      hide Apply;
      OrdersUntouched(category, core, e, id);
    }
  }

  // ---------- over the steps of a run ----------

  /** What `k` steps from here trade within reach of an order resting there. */
  function TradedOver<S>(setup: B.Setup<S>, sim: B.Sim<S>, side: Side, price: real, k: nat): real {
    if k == 0 then 0.0
    else
      var last := B.After(setup, sim, k - 1);
      TradedOver(setup, sim, side, price, k - 1)
      + (if B.Done(last) then 0.0 else EventVolume(last.desk.core, last.desk.queue[0], side, price))
  }

  ghost predicate AloneOver<S>(setup: B.Setup<S>, sim: B.Sim<S>, id: OrderId, side: Side, price: real, k: nat) {
    k == 0
    || (AloneOver(setup, sim, id, side, price, k - 1)
        && var last := B.After(setup, sim, k - 1);
           !B.Done(last) ==> Alone(last.desk.core, last.desk.queue[0], id, side, price))
  }

  ghost predicate NeverShrinksOver<S>(setup: B.Setup<S>, sim: B.Sim<S>, side: Side, price: real, k: nat) {
    k == 0
    || (NeverShrinksOver(setup, sim, side, price, k - 1)
        && PublicAt(B.After(setup, sim, k - 1).desk.core.book, side, price)
           <= PublicAt(B.After(setup, sim, k).desk.core.book, side, price))
  }

  ghost predicate InLife(d: Desk, id: OrderId) {
    Consistent(d) && AllScheduled(d) && id in d.history.rested && id in d.history.placed && id !in d.history.cancelled
  }

  lemma RestedIsPlaced(d: Desk, id: OrderId)
    requires Consistent(d) && id in d.history.rested
    ensures id in d.history.placed && id !in d.core.pending
  {
  }

  /** An order that has rested and is not cancelled after a step was neither before it, and no cancel came. */
  lemma StillInLife<S>(setup: B.Setup<S>, sim: B.Sim<S>, id: OrderId)
    requires Consistent(sim.desk) && AllScheduled(sim.desk) && id in sim.desk.history.rested
    requires id !in B.Step(setup, sim).desk.history.cancelled
    ensures InLife(sim.desk, id) && InLife(B.Step(setup, sim).desk, id)
    ensures !B.Done(sim) ==> sim.desk.queue[0].payload != CancelArrival(id)
  {
    hide Apply, PlaceLimit;
    RestedIsPlaced(sim.desk, id);
    StepKeepsConsistent(setup, sim);
    if !B.Done(sim) { StepIsDelivery(setup, sim); }
    hide Consistent, B.Step;
    RestedIsPlaced(B.Step(setup, sim).desk, id);
  }

  ghost predicate BracketAt(d: Desk, start: Desk, id: OrderId, o: Resting, traded: real, noShrinkage: bool) {
    var filled := FilledSize(d.core.account.fills, id) - FilledSize(start.core.account.fills, id);
    && traded >= 0.0
    && Bracketed(Find(d.core.book.orders, id), o.side, o.price, o.queueAhead, o.size, traded, filled)
    && (noShrinkage ==> Exact(Find(d.core.book.orders, id), o.queueAhead, o.size, traded, filled,
                              PublicAt(d.core.book, o.side, o.price)))
  }

  lemma StepKeepsBracket<S>(setup: B.Setup<S>, sim: B.Sim<S>, start: Desk, id: OrderId, o: Resting, traded: real,
                            noShrinkage: bool)
    requires !B.Done(sim) && InLife(sim.desk, id) && o.queueAhead >= 0.0 && o.size > 0.0
    requires sim.desk.queue[0].payload != CancelArrival(id)
    requires Alone(sim.desk.core, sim.desk.queue[0], id, o.side, o.price)
    requires BracketAt(sim.desk, start, id, o, traded, noShrinkage)
    ensures var after := B.Step(setup, sim).desk;
            BracketAt(after, start, id, o, traded + EventVolume(sim.desk.core, sim.desk.queue[0], o.side, o.price),
                      noShrinkage
                      && PublicAt(sim.desk.core.book, o.side, o.price) <= PublicAt(after.core.book, o.side, o.price))
  {
    hide Apply, Bracketed, Exact, FilledSize, Gain, EventVolume, Alone;
    var core, e := sim.desk.core, sim.desk.queue[0];
    RestedIsPlaced(sim.desk, id);
    StepIsDelivery(setup, sim);
    GainIsFilled(setup.category, core, e, id);
    EventKeepsBracket(setup.category, core, e, id, o.side, o.price, o.queueAhead, o.size, traded,
                      FilledSize(core.account.fills, id) - FilledSize(start.core.account.fills, id));
  }

  lemma {:induction false} ConsistentOver<S>(setup: B.Setup<S>, sim: B.Sim<S>, k: nat)
    requires Consistent(sim.desk) && AllScheduled(sim.desk)
    ensures Consistent(B.After(setup, sim, k).desk) && AllScheduled(B.After(setup, sim, k).desk)
  {
    hide Consistent, AllScheduled, B.Step;
    if k > 0 {
      ConsistentOver(setup, sim, k - 1);
      StepKeepsConsistent(setup, B.After(setup, sim, k - 1));
    }
  }

  lemma DoneStays<S>(setup: B.Setup<S>, sim: B.Sim<S>)
    requires B.Done(sim)
    ensures B.Step(setup, sim) == sim
  {
  }

  lemma {:induction false} RunKeepsBracketOver<S>(setup: B.Setup<S>, sim: B.Sim<S>, id: OrderId, o: Resting, k: nat)
    requires Consistent(sim.desk) && AllScheduled(sim.desk) && id in sim.desk.history.rested
    requires o.queueAhead >= 0.0 && o.size > 0.0 && BracketAt(sim.desk, sim.desk, id, o, 0.0, true)
    requires id !in B.After(setup, sim, k).desk.history.cancelled
    requires AloneOver(setup, sim, id, o.side, o.price, k)
    ensures var last := B.After(setup, sim, k).desk;
            && InLife(last, id)
            && BracketAt(last, sim.desk, id, o, TradedOver(setup, sim, o.side, o.price, k),
                         NeverShrinksOver(setup, sim, o.side, o.price, k))
  {
    hide Consistent, AllScheduled, BracketAt, B.Step, Alone, EventVolume;
    if k == 0 {
      RestedIsPlaced(sim.desk, id);
    } else {
      var last := B.After(setup, sim, k - 1);
      ConsistentOver(setup, sim, k - 1);
      if id in last.desk.history.cancelled { StepKeepsCancelled(setup, last, id); }
      RunKeepsBracketOver(setup, sim, id, o, k - 1);
      StillInLife(setup, last, id);
      if B.Done(last) {
        DoneStays(setup, last);
      } else {
        StepKeepsBracket(setup, last, sim.desk, id, o, TradedOver(setup, sim, o.side, o.price, k - 1),
                         NeverShrinksOver(setup, sim, o.side, o.price, k - 1));
      }
    }
  }

  // ---------- from the arrival on ----------

  lemma ArrivalRests(category: FeeCategory, core: Core, p: Placement, now: Millis, id: OrderId)
    requires !Tracks(core.book.orders, id) && Tracks(ApplyPlace(category, core, p, now).book.orders, id)
    ensures p.id == id
    ensures var after := ApplyPlace(category, core, p, now).book;
            var o := Find(after.orders, id).value;
            && o.queueAhead == o.levelAtPlacement == PublicAt(after, o.side, o.price)
  {
    var after := ApplyPlace(category, core, p, now).book;
    assert after != core.book;
    var added := after.orders[|after.orders| - 1];
    assert added.id == p.id && after.orders == core.book.orders + [added];
    assert added.queueAhead == added.levelAtPlacement == PublicAt(after, added.side, added.price);
    hide ApplyPlace, Tracks;
    FindConcat(core.book.orders, [added], id);
    TracksConcat(core.book.orders, [added], id);
  }

  /** An order comes to rest by its own arrival, at the end of the list, behind all that is public there. */
  lemma ComesToRest(category: FeeCategory, core: Core, e: Timed, id: OrderId)
    requires Wf(core.book) && !Tracks(core.book.orders, id) && Tracks(Apply(category, core, e).book.orders, id)
    ensures e.payload.PlaceArrival? && e.payload.order.id == id
    ensures var after := Apply(category, core, e).book;
            var o := Find(after.orders, id).value;
            && o.queueAhead == o.levelAtPlacement == PublicAt(after, o.side, o.price)
  {
    match e.payload
    case Market(event) =>
      if event.LastTrade? {
        TradeEvolves(core.book, event.price, event.size, event.side, event.ts);
        EvolvedNotTracked(core.book.orders, Apply(category, core, e).book.orders, id);
      } else {
        ChangesLeaveOrders(core.book, if event.PriceChange? then event.changes else []);
      }
    case PlaceArrival(p) => ArrivalRests(category, core, p, e.ts, id);
    case CancelArrival(other) =>
      WithoutEvolves(core.book.orders, other);
      EvolvedNotTracked(core.book.orders, Apply(category, core, e).book.orders, id);
  }

  lemma FreshIsBracketed(d: Desk, id: OrderId)
    requires Consistent(d) && Tracks(d.core.book.orders, id)
    requires var o := Find(d.core.book.orders, id).value;
             o.queueAhead == o.levelAtPlacement == PublicAt(d.core.book, o.side, o.price)
    ensures id in d.history.rested
    ensures var o := Find(d.core.book.orders, id).value; o.size > 0.0 && BracketAt(d, d, id, o, 0.0, true)
  {
    var o := Find(d.core.book.orders, id).value;
    var i :| 0 <= i < |d.core.book.orders| && d.core.book.orders[i] == o;
    assert WfOrder(d.core.book.orders[i]) && d.core.book.orders[i].id in d.history.rested;
  }

  lemma ConsistentIsWf(d: Desk)
    requires Consistent(d)
    ensures Wf(d.core.book)
  {
  }

  lemma StartsBracketed<S>(setup: B.Setup<S>, sim: B.Sim<S>, id: OrderId)
    requires Consistent(sim.desk) && AllScheduled(sim.desk)
    requires !Tracks(sim.desk.core.book.orders, id) && Tracks(B.Step(setup, sim).desk.core.book.orders, id)
    ensures var d := B.Step(setup, sim).desk;
            var o := Find(d.core.book.orders, id).value;
            && Consistent(d) && AllScheduled(d) && id in d.history.rested
            && o.queueAhead == PublicAt(d.core.book, o.side, o.price) && o.size > 0.0
            && BracketAt(d, d, id, o, 0.0, true)
  {
    if B.Done(sim) { DoneStays(setup, sim); }
    hide B.Step, Apply, Consistent, AllScheduled, BracketAt, Tracks;
    StepKeepsConsistent(setup, sim);
    ConsistentIsWf(sim.desk);
    StepIsDelivery(setup, sim);
    ComesToRest(setup.category, sim.desk.core, sim.desk.queue[0], id);
    FreshIsBracketed(B.Step(setup, sim).desk, id);
  }

  lemma LifeFromRest<S>(setup: B.Setup<S>, before: B.Sim<S>, k: nat, id: OrderId)
    requires Consistent(before.desk) && AllScheduled(before.desk)
    requires !Tracks(before.desk.core.book.orders, id) && Tracks(B.Step(setup, before).desk.core.book.orders, id)
    requires id !in B.After(setup, B.Step(setup, before), k).desk.history.cancelled
    requires var o := Find(B.Step(setup, before).desk.core.book.orders, id).value;
             AloneOver(setup, B.Step(setup, before), id, o.side, o.price, k)
    ensures var sim := B.Step(setup, before);
            var end, o := B.After(setup, sim, k).desk, Find(sim.desk.core.book.orders, id).value;
            FillBracketHolds(end.core.book, id, o.side, o.price, PublicAt(sim.desk.core.book, o.side, o.price), o.size,
                             TradedOver(setup, sim, o.side, o.price, k),
                             FilledSize(end.core.account.fills, id) - FilledSize(sim.desk.core.account.fills, id),
                             NeverShrinksOver(setup, sim, o.side, o.price, k))
  {
    hide B.Step, B.After, AloneOver, TradedOver, NeverShrinksOver, FillBracketHolds, FilledSize, Bracketed, Exact,
         Consistent, AllScheduled, Tracks, PublicAt, Wf;
    var sim := B.Step(setup, before);
    var o := Find(sim.desk.core.book.orders, id).value;
    StartsBracketed(setup, before, id);
    ConsistentIsWf(sim.desk);
    QueueAheadNotNegative(sim.desk.core.book, o.side, o.price);
    RunKeepsBracketOver(setup, sim, id, o, k);
    var end := B.After(setup, sim, k).desk;
    ConsistentIsWf(end);
    BracketMeans(end.core.book, id, o.side, o.price, o.queueAhead, o.size, TradedOver(setup, sim, o.side, o.price, k),
                 FilledSize(end.core.account.fills, id) - FilledSize(sim.desk.core.account.fills, id),
                 NeverShrinksOver(setup, sim, o.side, o.price, k));
  }

  /**
   The fill bracket for the whole life of an order in a backtest. Brought to rest at step n behind Q
   public units with S to fill, and not cancelled within the next k steps: trades totalling T at its
   level, none of which reaches another order of ours while it rests, fill between min(S, T-Q) and
   min(S, T) of it; exactly min(S, T-Q) when the public size there never shrank.
   */
  lemma LifeIsBracketed<S>(setup: B.Setup<S>, book: Book, tape: seq<MarketEvent>, state: S, n: nat, k: nat, id: OrderId)
    requires Wf(book) && book.orders == []
    requires !Tracks(DeskAt(setup, book, tape, state, n).core.book.orders, id)
    requires Tracks(DeskAt(setup, book, tape, state, n + 1).core.book.orders, id)
    requires id !in DeskAt(setup, book, tape, state, n + 1 + k).history.cancelled
    requires var o := Find(DeskAt(setup, book, tape, state, n + 1).core.book.orders, id).value;
             AloneOver(setup, B.After(setup, B.Start(book, tape, state), n + 1), id, o.side, o.price, k)
    ensures var sim, end := B.After(setup, B.Start(book, tape, state), n + 1),
                DeskAt(setup, book, tape, state, n + 1 + k);
            var o := Find(sim.desk.core.book.orders, id).value;
            FillBracketHolds(end.core.book, id, o.side, o.price, PublicAt(sim.desk.core.book, o.side, o.price), o.size,
                             TradedOver(setup, sim, o.side, o.price, k),
                             FilledSize(end.core.account.fills, id) - FilledSize(sim.desk.core.account.fills, id),
                             NeverShrinksOver(setup, sim, o.side, o.price, k))
  {
    hide B.Step, B.Start, AloneOver, TradedOver, NeverShrinksOver, FillBracketHolds, FilledSize, Consistent,
         AllScheduled,
         Tracks, PublicAt, Wf;
    RunConsistent(setup, book, tape, state, n);
    B.AfterSplits(setup, B.Start(book, tape, state), n + 1, n + 1 + k);
    LifeFromRest(setup, B.After(setup, B.Start(book, tape, state), n), k, id);
  }

  lemma QueueAheadNotNegative(book: Book, side: Side, price: real)
    requires Wf(book)
    ensures PublicAt(book, side, price) >= 0.0
  {
  }

  // ---------- quoting strategies ----------

  lemma OnePerSideIsAlone(core: Core, e: Timed, id: OrderId, side: Side, price: real)
    requires forall i, j :: 0 <= i < j < |core.book.orders| ==>
               !(core.book.orders[i].side == side && core.book.orders[j].side == side)
    requires Tracks(core.book.orders, id) ==>
               (exists i ::
                  0 <= i < |core.book.orders| && core.book.orders[i].id == id && core.book.orders[i].side == side)
    ensures Alone(core, e, id, side, price)
  {
  }

  lemma BracketKeepsSide(d: Desk, start: Desk, id: OrderId, o: Resting, traded: real, noShrinkage: bool)
    requires BracketAt(d, start, id, o, traded, noShrinkage)
    ensures Tracks(d.core.book.orders, id) ==>
              (exists i ::
                 0 <= i < |d.core.book.orders| && d.core.book.orders[i].id == id
                     && d.core.book.orders[i].side == o.side)
  {
    if Tracks(d.core.book.orders, id) {
      var live := Find(d.core.book.orders, id).value;
      var i :| 0 <= i < |d.core.book.orders| && d.core.book.orders[i] == live;
    }
  }

  lemma {:induction false} QuoteStaysAlone<I>(setup: B.Setup<QuoteState<I>>, quoter: Quoter<I>, book: Book,
                                              tape: seq<MarketEvent>,
                                              inner: I, delay: nat, n: nat, k: nat, id: OrderId, o: Resting)
    requires Wf(book) && book.orders == [] && SortedTape(tape)
    requires Constant(setup.latency, delay) && setup.strategy == AsStrategy(quoter)
    requires var sim := B.After(setup, B.Start(book, tape, Initial(inner)), n);
             && id in sim.desk.history.rested && o.queueAhead >= 0.0 && o.size > 0.0
                && BracketAt(sim.desk, sim.desk, id, o, 0.0, true)
             && id !in B.After(setup, sim, k).desk.history.cancelled
    ensures AloneOver(setup, B.After(setup, B.Start(book, tape, Initial(inner)), n), id, o.side, o.price, k)
    decreases k
  {
    hide Alone, BracketAt, B.Step, B.Start, Consistent, AllScheduled, SortedTape, Constant, Wf;
    if k > 0 {
      var sim := B.After(setup, B.Start(book, tape, Initial(inner)), n);
      var last := B.After(setup, sim, k - 1);
      RunConsistent(setup, book, tape, Initial(inner), n);
      ConsistentOver(setup, sim, k - 1);
      if id in last.desk.history.cancelled { StepKeepsCancelled(setup, last, id); }
      QuoteStaysAlone(setup, quoter, book, tape, inner, delay, n, k - 1, id, o);
      RunKeepsBracketOver(setup, sim, id, o, k - 1);
      B.AfterSplits(setup, B.Start(book, tape, Initial(inner)), n, n + k - 1);
      AtMostOneQuotePerSide(setup, quoter, book, tape, inner, delay, n + k - 1, o.side);
      BracketKeepsSide(last.desk, sim.desk, id, o, TradedOver(setup, sim, o.side, o.price, k - 1),
                       NeverShrinksOver(setup, sim, o.side, o.price, k - 1));
      if !B.Done(last) {
        OnePerSideIsAlone(last.desk.core, last.desk.queue[0], id, o.side, o.price);
      }
    }
  }

  /**
   Every quote of a quoting strategy with constant latency, on any tape in order of time: from its
   arrival until its cancel arrives the fill bracket holds, with no assumption on the other orders.
   */
  lemma QuoteLifeIsBracketed<I>(setup: B.Setup<QuoteState<I>>, quoter: Quoter<I>, book: Book, tape: seq<MarketEvent>,
                                inner: I, delay: nat, n: nat, k: nat, id: OrderId)
    requires Wf(book) && book.orders == [] && SortedTape(tape)
    requires Constant(setup.latency, delay) && setup.strategy == AsStrategy(quoter)
    requires !Tracks(DeskAt(setup, book, tape, Initial(inner), n).core.book.orders, id)
    requires Tracks(DeskAt(setup, book, tape, Initial(inner), n + 1).core.book.orders, id)
    requires id !in DeskAt(setup, book, tape, Initial(inner), n + 1 + k).history.cancelled
    ensures var sim := B.After(setup, B.Start(book, tape, Initial(inner)), n + 1);
            var end := DeskAt(setup, book, tape, Initial(inner), n + 1 + k);
            var o := Find(sim.desk.core.book.orders, id).value;
            FillBracketHolds(end.core.book, id, o.side, o.price, PublicAt(sim.desk.core.book, o.side, o.price), o.size,
                             TradedOver(setup, sim, o.side, o.price, k),
                             FilledSize(end.core.account.fills, id) - FilledSize(sim.desk.core.account.fills, id),
                             NeverShrinksOver(setup, sim, o.side, o.price, k))
  {
    hide B.Step, B.Start, AloneOver, TradedOver, NeverShrinksOver, FillBracketHolds, FilledSize, Consistent,
         AllScheduled,
         Tracks, PublicAt, Wf, SortedTape, Constant, BracketAt;
    var before := B.After(setup, B.Start(book, tape, Initial(inner)), n);
    var sim := B.After(setup, B.Start(book, tape, Initial(inner)), n + 1);
    var o := Find(sim.desk.core.book.orders, id).value;
    RunConsistent(setup, book, tape, Initial(inner), n);
    StartsBracketed(setup, before, id);
    ConsistentIsWf(sim.desk);
    QueueAheadNotNegative(sim.desk.core.book, o.side, o.price);
    B.AfterSplits(setup, B.Start(book, tape, Initial(inner)), n + 1, n + 1 + k);
    QuoteStaysAlone(setup, quoter, book, tape, inner, delay, n + 1, k, id, o);
    LifeIsBracketed(setup, book, tape, Initial(inner), n, k, id);
  }
}
