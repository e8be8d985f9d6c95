/**
 The reported PnL in terms of the fills and the public book: cash and inventory added up over the
 fills, the inventory valued at the mid that the last event with a two-sided book left.
 */
module MarkedPnl {
  import opened Prelude
  import opened OrderBook
  import opened BookInvariant
  import opened Fees
  import opened Metrics
  import opened TradingDesk
  import opened DeskInvariant
  import opened BacktestRuns
  import opened KillSwitches
  import opened HaltProtocol
  import opened PublicBook
  import opened TraderHalts
  import B = Backtest
  import P = Paper
  import H = KillSwitchHistory

  /** The PnL of these fills, with the inventory worth `mark` apiece. */
  function ValueOf(fills: seq<Fill>, mark: real): real {
    CashOf(fills) + InventoryOf(fills) * mark
  }

  /** Cash if no mid was ever seen, otherwise cash plus the inventory at the mid last seen. */
  ghost predicate IsPnl(pnl: real, fills: seq<Fill>, seen: Option<real>) {
    match seen
    case None => pnl == CashOf(fills)
    case Some(mark) => pnl == ValueOf(fills, mark)
  }

  /** An event that refreshes the mid: a snapshot, a level change or a trade. */
  predicate Refreshes(e: Timed) {
    e.payload.Market? && !e.payload.event.TickSizeChange?
  }

  ghost predicate TwoSided(book: Book) {
    (exists p :: p in book.bids) && (exists p :: p in book.asks)
  }

  /** A market event takes the mid of the book it leaves, if that has two sides; nothing else touches the mark. */
  lemma MidAfter(category: FeeCategory, core: Core, e: Timed)
    ensures var after := Apply(category, core, e);
            && (Refreshes(e) && TwoSided(after.book) ==>
                  after.account.lastMid.Some? && IsMid(after.book, after.account.lastMid.value))
            && (!(Refreshes(e) && TwoSided(after.book)) ==> after.account.lastMid == core.account.lastMid)
  {
    MidIs(Apply(category, core, e).book);
    hide IsMid, Traded, AddOrder, CrossesSpread, Opposite;
    if e.payload.Market? && e.payload.event.LastTrade? {
      var event := e.payload.event;
      BookedAllKeepsMid(core.account, Traded(core.book, event.price, event.size, event.side, event.ts).fills,
                        event.price,
                        event.ts, category);
    }
  }

  lemma {:induction false} BookedAllKeepsMid(account: Account, fills: seq<BookFill>, price: real, ts: int,
                                             category: FeeCategory)
    ensures BookedAll(account, fills, price, ts, category).lastMid == account.lastMid
  {
    if fills != [] { BookedAllKeepsMid(account, fills[..|fills| - 1], price, ts, category); }
  }

  lemma MarkIs(account: Account)
    requires Accounted(account)
    ensures IsPnl(MarkToMid(account), account.fills, account.lastMid)
  {
  }

  // ---------- the backtester ----------

  /** Step `k` delivers a refreshing event that leaves a two-sided book with this mid. */
  ghost predicate SeesMid<S>(setup: B.Setup<S>, start: B.Sim<S>, k: nat, mark: real) {
    var before, after := B.After(setup, start, k), B.After(setup, start, k + 1);
    && !B.Done(before) && Refreshes(before.desk.queue[0])
    && TwoSided(after.desk.core.book) && IsMid(after.desk.core.book, mark)
  }

  /** What the last of the first `n` steps that saw a mid saw; None if none did. */
  ghost predicate LastSeen<S>(setup: B.Setup<S>, start: B.Sim<S>, n: nat, seen: Option<real>) {
    match seen
    case None => forall k: nat, m :: k < n ==> !SeesMid(setup, start, k, m)
    case Some(mark) =>
      exists k: nat :: k < n && SeesMid(setup, start, k, mark)
                       && forall j: nat, m :: k < j < n ==> !SeesMid(setup, start, j, m)
  }

  lemma StepMid<S>(setup: B.Setup<S>, start: B.Sim<S>, n: nat)
    ensures var before, after := B.After(setup, start, n).desk.core.account.lastMid,
                B.After(setup, start, n + 1).desk.core.account.lastMid;
            if exists m :: SeesMid(setup, start, n, m) then after.Some? && SeesMid(setup, start, n, after.value)
            else after == before
  {
    hide B.Step, Apply, IsMid, TwoSided, Noted, Refreshes;
    var sim := B.After(setup, start, n);
    var after := B.After(setup, start, n + 1);
    if B.Done(sim) {
      DoneStaysPut(setup, sim);
    } else {
      StepIsDelivery(setup, sim);
      MidAfter(setup.category, sim.desk.core, sim.desk.queue[0]);
      if Refreshes(sim.desk.queue[0]) && TwoSided(after.desk.core.book) {
        assert SeesMid(setup, start, n, after.desk.core.account.lastMid.value);
      }
    }
  }

  lemma DoneStaysPut<S>(setup: B.Setup<S>, sim: B.Sim<S>)
    requires B.Done(sim)
    ensures B.Step(setup, sim) == sim
  {
  }

  lemma {:induction false} RunMid<S>(setup: B.Setup<S>, book: Book, tape: seq<MarketEvent>, state: S, n: nat)
    ensures LastSeen(setup, B.Start(book, tape, state), n,
                     B.After(setup, B.Start(book, tape, state), n).desk.core.account.lastMid)
  {
    hide SeesMid, B.Step, B.Start;
    var start := B.Start(book, tape, state);
    if n == 0 {
      NothingSeen(setup, book, tape, state);
    } else {
      RunMid(setup, book, tape, state, n - 1);
      StepMid(setup, start, n - 1);
      hide B.After;
      NextSeen(setup, start, n - 1, B.After(setup, start, n - 1).desk.core.account.lastMid,
               B.After(setup, start, n).desk.core.account.lastMid);
    }
  }

  lemma NothingSeen<S>(setup: B.Setup<S>, book: Book, tape: seq<MarketEvent>, state: S)
    ensures B.After(setup, B.Start(book, tape, state), 0).desk.core.account.lastMid == None
  {
  }

  lemma NextSeen<S>(setup: B.Setup<S>, start: B.Sim<S>, n: nat, before: Option<real>, after: Option<real>)
    requires LastSeen(setup, start, n, before)
    requires if exists m :: SeesMid(setup, start, n, m) then after.Some? && SeesMid(setup, start, n, after.value)
             else after == before
    ensures LastSeen(setup, start, n + 1, after)
  {
    hide SeesMid;
    if m :| SeesMid(setup, start, n, m) {
    } else if before.Some? {
      var k: nat :| k < n && SeesMid(setup, start, k, before.value)
                    && forall j: nat, m :: k < j < n ==> !SeesMid(setup, start, j, m);
      assert forall j: nat, m :: k < j < n + 1 ==> !SeesMid(setup, start, j, m);
    }
  }

  /**
   In every state of a backtest the PnL of the result it would report, and the PnL of the snapshot it
   would record, is the cash of the fills plus their inventory at the mid of the last two-sided book.
   */
  lemma ReportedPnl<S>(setup: B.Setup<S>, book: Book, tape: seq<MarketEvent>, state: S, n: nat,
                       series: seq<B.PnLSnapshot>)
    requires Wf(book) && book.orders == []
    ensures var start := B.Start(book, tape, state);
            var d := B.After(setup, start, n).desk;
            exists seen ::
              && LastSeen(setup, start, n, seen)
              && IsPnl(B.ResultOf(d.core.account, series).pnl, d.core.account.fills, seen)
              && IsPnl(B.SnapshotOf(d).pnl, d.core.account.fills, seen) && B.SnapshotOf(d).markPrice == seen
  {
    var d := B.After(setup, B.Start(book, tape, state), n).desk;
    RunMid(setup, book, tape, state, n);
    RunConsistent(setup, book, tape, state, n);
    hide B.After, B.Start, LastSeen;
    MarkIs(d.core.account);
  }

  /** The recorded series: entry i is of the fills and mids of the first i + 1 steps. */
  lemma SeriesIsMarked<S>(setup: B.Setup<S>, book: Book, tape: seq<MarketEvent>, state: S, n: nat, i: nat)
    requires Wf(book) && book.orders == [] && i < n
    requires var start := B.Start(book, tape, state);
             (forall k :: 0 <= k < n ==> !B.Done(B.After(setup, start, k))) && !B.After(setup, start, n).raised
    ensures var start := B.Start(book, tape, state);
            var series, fills := B.PnLSeries(setup, start, n), B.After(setup, start, i + 1).desk.core.account.fills;
            && |series| == n
            && exists seen :: LastSeen(setup, start, i + 1, seen) && IsPnl(series[i].pnl, fills, seen)
                              && series[i].cash == CashOf(fills) && series[i].inventory == InventoryOf(fills)
                              && series[i].timestampMs == B.After(setup, start, i + 1).desk.now
  {
    hide B.Step, B.Start, LastSeen, B.PnLSeries;
    var start := B.Start(book, tape, state);
    B.SeriesFollowsRun(setup, start, n);
    ReportedPnl(setup, book, tape, state, i + 1, []);
    AccountsAreFolds(setup, book, tape, state, i + 1);
    var d := B.After(setup, start, i + 1).desk;
    assert B.PnLSeries(setup, start, n)[i] == B.SnapshotOf(d);
  }

  /** What the result says besides: the fills counted by kind, and the totals as they are, unrounded. */
  lemma ResultReports<S>(setup: B.Setup<S>, book: Book, tape: seq<MarketEvent>, state: S, n: nat,
                         series: seq<B.PnLSnapshot>)
    requires Wf(book) && book.orders == []
    ensures var fills := B.After(setup, B.Start(book, tape, state), n).desk.core.account.fills;
            var r := B.ResultOf(B.After(setup, B.Start(book, tape, state), n).desk.core.account, series);
            && r.fills == fills && r.pnlSeries == series && r.nFills == |fills|
            && r.nMakerFills == |set i | 0 <= i < |fills| && fills[i].isMaker|
            && r.nTakerFills == |set i | 0 <= i < |fills| && !fills[i].isMaker|
            && r.cash == CashOf(fills) && r.finalInventory == InventoryOf(fills)
            && r.feesPaid == FeesOf(fills) && r.rebatesReceived == RebatesOf(fills)
  {
    hide B.Start, B.After;
    AccountsAreFolds(setup, book, tape, state, n);
    MakersCounted(B.After(setup, B.Start(book, tape, state), n).desk.core.account.fills);
  }

  ghost function Makers(fills: seq<Fill>): set<int> {
    set i | 0 <= i < |fills| && fills[i].isMaker
  }

  ghost function Takers(fills: seq<Fill>): set<int> {
    set i | 0 <= i < |fills| && !fills[i].isMaker
  }

  lemma {:induction false} MakersCounted(fills: seq<Fill>)
    ensures B.MakerCount(fills) == |Makers(fills)| && |fills| - B.MakerCount(fills) == |Takers(fills)|
  {
    if fills != [] {
      var n, init := |fills| - 1, fills[..|fills| - 1];
      MakersCounted(init);
      if fills[n].isMaker {
        assert Makers(fills) == Makers(init) + {n} && Takers(fills) == Takers(init);
      } else {
        assert Makers(fills) == Makers(init) && Takers(fills) == Takers(init) + {n};
      }
    }
  }

  /** A fill at p, valued at m, moves the reported PnL by its edge sign * size * (m - p), plus rebate, less fee. */
  lemma FillMovesPnl(account: Account, f: Fill, m: real, series: seq<B.PnLSnapshot>)
    requires account.lastMid == Some(m)
    ensures var edge := if f.side.Bid? then f.size * (m - f.price) else f.size * (f.price - m);
            B.ResultOf(Booked(account, f), series).pnl
            == B.ResultOf(account, series).pnl + edge + f.rebateReceived - f.feePaid
  {
  }

  // ---------- the paper trader ----------

  /** The trader's queue holds arrivals only, so that nothing it drains refreshes the mid. */
  ghost predicate OnlyArrivals(queue: seq<Timed>) {
    forall x :: x in queue ==> !x.payload.Market?
  }

  lemma {:induction false} ActionsKeepArrivals(latency: Latency, d: Desk, actions: seq<Action>)
    requires OnlyArrivals(d.queue) && forall i :: 0 <= i < |actions| ==> Acceptable(actions[i])
    ensures OnlyArrivals(PerformAll(latency, d, actions).queue)
  {
    if actions != [] {
      var before, a := PerformAll(latency, d, actions[..|actions| - 1]), actions[|actions| - 1];
      ActionsKeepArrivals(latency, d, actions[..|actions| - 1]);
      EnqueuedMembers(before.queue, ActionEvent(latency, before, a));
    }
  }

  lemma DrainOneKeepsMid<S>(category: FeeCategory, t: P.Trader<S>)
    requires OnlyArrivals(t.desk.queue) && t.desk.queue != []
    ensures var after := P.DrainOne(category, t).desk;
            OnlyArrivals(after.queue) && after.core.account.lastMid == t.desk.core.account.lastMid
  {
    hide Apply, P.IdsAfter;
    var due := P.Due(t.desk).queue;
    assert t.desk.queue[0] in t.desk.queue && due[1..] == t.desk.queue[1..];
    assert forall x :: x in t.desk.queue[1..] ==> x in t.desk.queue;
    MidAfter(category, t.desk.core, due[0]);
  }

  lemma {:induction false} DrainedKeepsMid<S>(category: FeeCategory, t: P.Trader<S>, ts: Millis)
    requires OnlyArrivals(t.desk.queue)
    ensures var after := P.Drained(category, t, ts).desk;
            OnlyArrivals(after.queue) && after.core.account.lastMid == t.desk.core.account.lastMid
    decreases |t.desk.queue|
  {
    hide OnlyArrivals, P.DrainOne;
    if t.desk.queue != [] && t.desk.queue[0].ts <= ts {
      DrainOneKeepsMid(category, t);
      DrainOneShortens(category, t);
      DrainedKeepsMid(category, P.DrainOne(category, t), ts);
    }
  }

  lemma DrainOneShortens<S>(category: FeeCategory, t: P.Trader<S>)
    requires t.desk.queue != []
    ensures |P.DrainOne(category, t).desk.queue| < |t.desk.queue|
  {
    hide Apply, P.IdsAfter;
  }

  /** A market event moves the mark as it does in the backtester, and what follows it leaves accounts and levels. */
  lemma EventMid<S>(setup: P.PaperSetup<S>, t: P.Trader<S>, event: MarketEvent, nowS: real)
    requires setup.limits.Valid() && OnlyArrivals(t.desk.queue)
    ensures var after := P.EventProcessed(setup, t, event, nowS).desk;
            && OnlyArrivals(after.queue) && after.core.account == Marked(setup, t, event)
            && (Refreshes(OnTape(event)) && TwoSided(after.core.book) ==>
                  after.core.account.lastMid.Some? && IsMid(after.core.book, after.core.account.lastMid.value))
            && (!(Refreshes(OnTape(event)) && TwoSided(after.core.book)) ==>
                  after.core.account.lastMid == t.desk.core.account.lastMid)
  {
    hide Ticked, P.Drained, Apply, Allowed, P.IdsAfter;
    DrainedKeepsMid(setup.category, t, event.ts);
    var drained := P.Drained(setup.category, t, event.ts);
    MidAfter(setup.category, drained.desk.core, OnTape(event));
    var marked := P.MarketApplied(setup.category, drained, event);
    var ticked := P.SwitchTicked(setup.limits, marked, nowS);
    var actions := Allowed(setup.strategy.onEvent(ticked.state, ViewOf(ticked.desk), OnTape(event),
                                                  drained.seqCounter).actions);
    PerformAllKeepsCore(setup.latency, ticked.desk, actions);
    ActionsKeepArrivals(setup.latency, ticked.desk, actions);
    hide PerformAll;
    var after := P.EventProcessed(setup, t, event, nowS).desk;
    assert after.core.book.bids == marked.desk.core.book.bids && after.core.book.asks == marked.desk.core.book.asks;
    SameLevelsSameMid(marked.desk.core.book, after.core.book);
  }

  lemma SameLevelsSameMid(a: Book, b: Book)
    requires a.bids == b.bids && a.asks == b.asks
    ensures TwoSided(a) == TwoSided(b) && forall m :: IsMid(a, m) == IsMid(b, m)
  {
    forall m ensures IsMid(a, m) == IsMid(b, m) {
      assert forall p :: IsBestBid(a, p) == IsBestBid(b, p);
      assert forall p :: IsBestAsk(a, p) == IsBestAsk(b, p);
    }
  }

  /** Input `k` is a refreshing event that leaves a two-sided book with this mid. */
  ghost predicate InputSeesMid<S>(setup: P.PaperSetup<S>, start: P.Trader<S>, inputs: seq<P.Input>, k: nat, mark: real)
    requires setup.limits.Valid()
  {
    && k < |inputs| && inputs[k].MarketMessage? && Refreshes(OnTape(inputs[k].event))
    && var book := P.After(setup, start, inputs[..k + 1]).desk.core.book; TwoSided(book) && IsMid(book, mark)
  }

  /** What the last of the inputs that saw a mid saw; None if none did. */
  ghost predicate LastSeenIn<S>(setup: P.PaperSetup<S>, start: P.Trader<S>, inputs: seq<P.Input>, seen: Option<real>)
    requires setup.limits.Valid()
  {
    match seen
    case None => forall k: nat, m :: !InputSeesMid(setup, start, inputs, k, m)
    case Some(mark) =>
      exists k: nat :: InputSeesMid(setup, start, inputs, k, mark)
                       && forall j: nat, m :: k < j ==> !InputSeesMid(setup, start, inputs, j, m)
  }

  lemma TurnMid<S>(setup: P.PaperSetup<S>, t: P.Trader<S>, input: P.Input)
    requires setup.limits.Valid() && OnlyArrivals(t.desk.queue)
    ensures var after := P.Handle(setup, t, input).desk;
            var refreshed := input.MarketMessage? && Refreshes(OnTape(input.event)) && TwoSided(after.core.book);
            && OnlyArrivals(after.queue)
            && (refreshed ==>
                  after.core.account.lastMid.Some? && IsMid(after.core.book, after.core.account.lastMid.value))
            && (!refreshed ==> after.core.account.lastMid == t.desk.core.account.lastMid)
  {
    hide P.EventProcessed, IsMid;
    if input.MarketMessage? {
      EventMid(setup, t.(switch := MessageNoted(t.switch, input.receivedS)), input.event, input.tickedS);
    }
  }

  lemma SeesMidShorter<S>(setup: P.PaperSetup<S>, start: P.Trader<S>, inputs: seq<P.Input>, n: nat, k: nat, m: real)
    requires setup.limits.Valid() && |inputs| == n + 1
    ensures InputSeesMid(setup, start, inputs[..n], k, m) <==> k < n && InputSeesMid(setup, start, inputs, k, m)
    ensures InputSeesMid(setup, start, inputs, k, m) ==> k <= n
  {
    if k < n { assert inputs[..n][k] == inputs[k] && inputs[..n][..k + 1] == inputs[..k + 1]; }
  }

  lemma NextSeenIn<S>(setup: P.PaperSetup<S>, start: P.Trader<S>, inputs: seq<P.Input>, n: nat, before: Option<real>,
                      after: Option<real>)
    requires setup.limits.Valid() && |inputs| == n + 1
    requires LastSeenIn(setup, start, inputs[..n], before)
    requires if exists m :: InputSeesMid(setup, start, inputs, n, m)
             then after.Some? && InputSeesMid(setup, start, inputs, n, after.value) else after == before
    ensures LastSeenIn(setup, start, inputs, after)
  {
    hide InputSeesMid;
    forall k: nat, m
      ensures InputSeesMid(setup, start, inputs[..n], k, m) <==> k < n && InputSeesMid(setup, start, inputs, k, m)
      ensures InputSeesMid(setup, start, inputs, k, m) ==> k <= n
    {
      SeesMidShorter(setup, start, inputs, n, k, m);
    }
    if m :| InputSeesMid(setup, start, inputs, n, m) {
    } else if before.Some? {
      var k: nat :| InputSeesMid(setup, start, inputs[..n], k, before.value)
                    && forall j: nat, m :: k < j ==> !InputSeesMid(setup, start, inputs[..n], j, m);
      assert InputSeesMid(setup, start, inputs, k, before.value);
    }
  }

  lemma LastTurnMid<S>(setup: P.PaperSetup<S>, start: P.Trader<S>, inputs: seq<P.Input>, n: nat)
    requires setup.limits.Valid() && |inputs| == n + 1
    requires OnlyArrivals(P.After(setup, start, inputs[..n]).desk.queue)
    ensures var before, after := P.After(setup, start, inputs[..n]).desk, P.After(setup, start, inputs).desk;
            && OnlyArrivals(after.queue)
            && (if exists m :: InputSeesMid(setup, start, inputs, n, m)
                then after.core.account.lastMid.Some?
                     && InputSeesMid(setup, start, inputs, n, after.core.account.lastMid.value)
                else after.core.account.lastMid == before.core.account.lastMid)
  {
    hide P.Handle, IsMid, TwoSided;
    TurnMid(setup, P.After(setup, start, inputs[..n]), inputs[n]);
    assert inputs[..n + 1] == inputs;
    var after := P.After(setup, start, inputs).desk;
    if inputs[n].MarketMessage? && Refreshes(OnTape(inputs[n].event)) && TwoSided(after.core.book) {
      assert InputSeesMid(setup, start, inputs, n, after.core.account.lastMid.value);
    }
  }

  lemma {:induction false} TraderMid<S>(setup: P.PaperSetup<S>, book: Book, state: S, inputs: seq<P.Input>)
    requires setup.limits.Valid()
    ensures var t := P.After(setup, P.Fresh(book, state), inputs);
            && OnlyArrivals(t.desk.queue)
            && LastSeenIn(setup, P.Fresh(book, state), inputs, t.desk.core.account.lastMid)
  {
    hide P.Handle, LastSeenIn;
    if inputs == [] {
      NothingSeenYet(setup, book, state);
    } else {
      hide P.Fresh;
      var n: nat, init, start := |inputs| - 1, inputs[..|inputs| - 1], P.Fresh(book, state);
      TraderMid(setup, book, state, init);
      LastTurnMid(setup, start, inputs, n);
      NextSeenIn(setup, start, inputs, n, P.After(setup, start, init).desk.core.account.lastMid,
                 P.After(setup, start, inputs).desk.core.account.lastMid);
    }
  }

  lemma NothingSeenYet<S>(setup: P.PaperSetup<S>, book: Book, state: S)
    requires setup.limits.Valid()
    ensures LastSeenIn(setup, P.Fresh(book, state), [], None)
    ensures OnlyArrivals(P.Fresh(book, state).desk.queue) && P.Fresh(book, state).desk.core.account.lastMid == None
  {
  }

  /**
   What the kill switch of a paper run hears of a market event: a sign of life, and a tick with the
   cash of the fills so far plus their inventory at the mid of the last two-sided book.
   */
  lemma TickIsMarked<S>(setup: P.PaperSetup<S>, book: Book, state: S, inputs: seq<P.Input>, event: MarketEvent,
                        receivedS: real, tickedS: real)
    requires setup.limits.Valid() && Wf(book) && book.orders == []
    ensures var start, all := P.Fresh(book, state), inputs + [P.MarketMessage(event, receivedS, tickedS)];
            var fills := P.After(setup, start, all).desk.core.account.fills;
            exists seen, pnl ::
              && AllHeard(setup, start, all) == AllHeard(setup, start, inputs)
                                                + [H.WsMessage(receivedS), H.Tick(tickedS, pnl, InventoryOf(fills))]
              && LastSeenIn(setup, start, all, seen) && IsPnl(pnl, fills, seen)
  {
    hide P.EventProcessed, LastSeenIn, P.Fresh, MarkToMid;
    var start, message := P.Fresh(book, state), P.MarketMessage(event, receivedS, tickedS);
    var all := inputs + [message];
    assert all[..|all| - 1] == inputs;
    var t := P.After(setup, start, inputs);
    TraderMid(setup, book, state, inputs);
    TraderMid(setup, book, state, all);
    AlwaysAtRest(setup, book, state, all);
    var s := MessageNoted(t.switch, receivedS);
    EventMid(setup, t.(switch := s), event, tickedS);
    MarkedIgnoresSwitch(setup, t, s, event);
    var account := Marked(setup, t, event);
    assert P.After(setup, start, all).desk.core.account == account;
    MarkIs(account);
    assert Heard(setup, t, message) == [H.WsMessage(receivedS), H.Tick(tickedS, MarkToMid(account), account.inventory)];
  }

  lemma MarkedIgnoresSwitch<S>(setup: P.PaperSetup<S>, t: P.Trader<S>, s: Switch, event: MarketEvent)
    ensures Marked(setup, t.(switch := s), event) == Marked(setup, t, event)
  {
    hide Apply, P.Drained;
    DrainIgnoresSwitch(setup.category, t, s, event.ts);
  }
}
