/**
 What every event and every action keeps, for both drivers: the life of each order,
 the accounts, the limits, and the arrival order of the resting orders.
 */
module DeskInvariant {
  import opened Prelude
  import opened OrderBook
  import opened BookInvariant
  import opened BookRuns
  import opened TradePriority
  import opened Fees
  import opened Metrics
  import opened TradingDesk

  // ---------- the invariant ----------

  ghost predicate KnownArrivals(queue: seq<Timed>, placed: map<OrderId, Placement>) {
    forall i :: 0 <= i < |queue| && queue[i].payload.PlaceArrival? ==> Known(queue[i].payload.order, placed)
  }

  ghost predicate Known(p: Placement, placed: map<OrderId, Placement>) {
    p.id in placed && placed[p.id] == p
  }

  /** Ids are handed out from 1 upwards; queue and cancels refer to placed orders. */
  ghost predicate Registered(d: Desk) {
    && d.nextId >= 1
    && (forall id :: id in d.history.placed <==> 1 <= id < d.nextId)
    && (forall id :: id in d.history.placed ==> d.history.placed[id].id == id && d.history.placed[id].size > 0.0)
    && KnownArrivals(d.queue, d.history.placed)
    && d.history.cancelled <= d.history.placed.Keys
  }

  ghost predicate RestsAsPlaced(o: Resting, h: History) {
    && o.id in h.placed && o.id !in h.cancelled
    && o.side == h.placed[o.id].side && o.price == h.placed[o.id].price
  }

  ghost predicate PendsAsPlaced(core: Core, id: OrderId, h: History) {
    && id in core.pending && id in h.placed && core.pending[id] == h.placed[id]
    && id !in h.cancelled && !Tracks(core.book.orders, id)
  }

  /** No order is both pending and resting, and neither once its cancel has arrived. */
  ghost predicate Positioned(core: Core, h: History) {
    && Wf(core.book)
    && (forall i :: 0 <= i < |core.book.orders| ==> RestsAsPlaced(core.book.orders[i], h))
    && (forall id :: id in core.pending ==> PendsAsPlaced(core, id, h))
  }

  function FilledSize(fills: seq<Fill>, id: OrderId): real {
    if fills == [] then 0.0
    else FilledSize(fills[..|fills| - 1], id) + (if fills[|fills| - 1].id == id then fills[|fills| - 1].size else 0.0)
  }

  /** The size of an order that can still be filled. */
  function Open(core: Core, id: OrderId): real {
    (if id in core.pending then core.pending[id].size else 0.0) + RestingSize(core.book.orders, id)
  }

  ghost predicate SizeAccountedFor(core: Core, h: History, id: OrderId)
    requires id in h.placed
  {
    if id in h.cancelled then 0.0 <= FilledSize(core.account.fills, id) <= h.placed[id].size
    else FilledSize(core.account.fills, id) + Open(core, id) == h.placed[id].size
  }

  ghost predicate Conserved(core: Core, h: History) {
    forall id :: id in h.placed ==> SizeAccountedFor(core, h, id)
  }

  ghost predicate Accounted(account: Account) {
    && account.cash == CashOf(account.fills)
    && account.inventory == InventoryOf(account.fills)
    && account.feesPaid == FeesOf(account.fills)
    && account.rebatesReceived == RebatesOf(account.fills)
  }

  ghost predicate WithinLimit(f: Fill, placed: map<OrderId, Placement>) {
    && f.id in placed && f.side == placed[f.id].side && f.size > 0.0
    && (if f.side.Bid? then f.price <= placed[f.id].price else f.price >= placed[f.id].price)
  }

  ghost predicate LimitsRespected(account: Account, placed: map<OrderId, Placement>) {
    forall i :: 0 <= i < |account.fills| ==> WithinLimit(account.fills[i], placed)
  }

  ghost predicate RestedInOrder(rested: seq<OrderId>, first: OrderId, second: OrderId) {
    exists a, b :: 0 <= a < b < |rested| && rested[a] == first && rested[b] == second
  }

  /** The book lists our orders in the order in which they came to rest. */
  ghost predicate Ordered(core: Core, h: History) {
    && NoRepeats(h.rested)
    && (forall id :: id in h.rested ==> id in h.placed && id !in core.pending)
    && (forall i :: 0 <= i < |core.book.orders| ==> core.book.orders[i].id in h.rested)
    && (forall i, j :: 0 <= i < j < |core.book.orders| ==>
          RestedInOrder(h.rested, core.book.orders[i].id, core.book.orders[j].id))
  }

  ghost predicate Sound(core: Core, h: History) {
    && Positioned(core, h) && Conserved(core, h) && Accounted(core.account)
    && LimitsRespected(core.account, h.placed) && Ordered(core, h)
  }

  ghost predicate Consistent(d: Desk) {
    Registered(d) && Sound(d.core, d.history)
  }

  ghost predicate Scheduled(queue: seq<Timed>, p: Placement) {
    exists i :: 0 <= i < |queue| && queue[i].payload == PlaceArrival(p)
  }

  ghost predicate AllScheduled(d: Desk) {
    forall id :: id in d.core.pending ==> Scheduled(d.queue, d.core.pending[id])
  }

  // ---------- accounts ----------

  lemma BookedKeeps(account: Account, f: Fill)
    requires Accounted(account)
    ensures Accounted(Booked(account, f))
    ensures forall id ::
              FilledSize(Booked(account, f).fills, id)
              == FilledSize(account.fills, id) + (if f.id == id then f.size else 0.0)
  {
    assert Booked(account, f).fills[..|account.fills|] == account.fills;
  }

  lemma {:induction false} BookedAllKeeps(account: Account, fills: seq<BookFill>, price: real, ts: int,
                                          category: FeeCategory)
    requires Accounted(account)
    ensures Accounted(BookedAll(account, fills, price, ts, category))
    ensures forall id :: FilledSize(BookedAll(account, fills, price, ts, category).fills, id)
                         == FilledSize(account.fills, id) + FilledBy(fills, id)
  {
    if fills != [] {
      var init, last := fills[..|fills| - 1], fills[|fills| - 1];
      BookedAllKeeps(account, init, price, ts, category);
      BookedKeeps(BookedAll(account, init, price, ts, category), MakerFill(last, price, ts, category));
      assert fills == init + [last];
      forall id ensures FilledBy(fills, id) == FilledBy(init, id) + (if last.id == id then last.size else 0.0) {
        FilledByConcat(init, [last], id);
      }
    }
  }

  lemma {:induction false} BookedAllFills(account: Account, fills: seq<BookFill>, price: real, ts: int,
                                          category: FeeCategory)
    ensures var booked := BookedAll(account, fills, price, ts, category);
            && |booked.fills| == |account.fills| + |fills|
            && booked.fills[..|account.fills|] == account.fills
            && (forall k :: 0 <= k < |fills| ==>
                  booked.fills[|account.fills| + k] == MakerFill(fills[k], price, ts, category))
  {
    if fills != [] {
      BookedAllFills(account, fills[..|fills| - 1], price, ts, category);
    }
  }

  // ---------- market events ----------

  /** Book changes that only move our orders on keep everything that is said about them. */
  lemma EvolvedKeepsOrdered(core: Core, after: Core, h: History)
    requires Ordered(core, h) && after.pending == core.pending
    requires Evolved(core.book.orders, after.book.orders)
    ensures Ordered(after, h)
  {
    var before, later := core.book.orders, after.book.orders;
    forall i | 0 <= i < |later| ensures later[i].id in h.rested {
      EvolvedTracks(before, later, i);
    }
    forall i, j | 0 <= i < j < |later| ensures RestedInOrder(h.rested, later[i].id, later[j].id) {
      EvolvedKeepsOrder(before, later, i, j);
      var k, l :| 0 <= k < l < |before| && before[k].id == later[i].id && before[l].id == later[j].id;
      assert RestedInOrder(h.rested, before[k].id, before[l].id);
    }
  }

  lemma EvolvedNotTracked(before: seq<Resting>, after: seq<Resting>, id: OrderId)
    requires Evolved(before, after) && !Tracks(before, id)
    ensures !Tracks(after, id)
  {
    forall k | 0 <= k < |after| ensures after[k].id != id {
      EvolvedTracks(before, after, k);
    }
  }

  lemma EvolvedKeepsPositioned(core: Core, after: Core, h: History)
    requires Positioned(core, h) && after.pending == core.pending && Wf(after.book)
    requires Evolved(core.book.orders, after.book.orders)
    ensures Positioned(after, h)
  {
    forall i | 0 <= i < |after.book.orders| ensures RestsAsPlaced(after.book.orders[i], h) {
      EvolvedTracks(core.book.orders, after.book.orders, i);
    }
    forall id | id in after.pending ensures PendsAsPlaced(after, id, h) {
      assert PendsAsPlaced(core, id, h);
      EvolvedNotTracked(core.book.orders, after.book.orders, id);
    }
  }

  lemma {:induction false} ChangesKeepWf(book: Book, changes: seq<PriceLevelChange>)
    requires Wf(book)
    ensures Wf(ApplyChanges(book, changes)) && ApplyChanges(book, changes).orders == book.orders
    ensures ApplyChanges(book, changes).tick == book.tick
  {
    if changes != [] {
      ChangesKeepWf(book, changes[..|changes| - 1]);
    }
  }

  /** An event that leaves our orders, our pending placements and our fills alone. */
  lemma SameOrdersSound(core: Core, after: Core, h: History)
    requires Sound(core, h) && Wf(after.book)
    requires after.book.orders == core.book.orders && after.pending == core.pending
    requires after.account == core.account.(lastMid := after.account.lastMid)
    ensures Sound(after, h)
  {
    EvolvedSame(core.book.orders);
    EvolvedKeepsOrdered(core, after, h);
    EvolvedKeepsPositioned(core, after, h);
    forall id | id in h.placed ensures SizeAccountedFor(after, h, id) {
      assert SizeAccountedFor(core, h, id);
    }
  }

  lemma TradeFillsWithinLimit(core: Core, h: History, ts: Millis, price: real, size: Volume, side: Aggressor,
                              category: FeeCategory)
    requires Sound(core, h)
    ensures var walked := Traded(core.book, price, size, side, ts);
            LimitsRespected(BookedAll(core.account, walked.fills, price, ts, category), h.placed)
  {
    assert Wf(core.book);
    var walked := Traded(core.book, price, size, side, ts);
    var booked := BookedAll(core.account, walked.fills, price, ts, category);
    BookedAllFills(core.account, walked.fills, price, ts, category);
    hide Walk, BookedAll, Sound, WithinLimit;
    forall i | 0 <= i < |booked.fills| ensures WithinLimit(booked.fills[i], h.placed) {
      if i < |core.account.fills| {
        assert booked.fills[i] == core.account.fills[i];
      } else {
        var k := i - |core.account.fills|;
        assert booked.fills[|core.account.fills| + k] == MakerFill(walked.fills[k], price, ts, category);
        MakerFillWithinLimit(core, h, ts, price, size, side, category, k);
      }
    }
  }

  lemma MakerFillWithinLimit(core: Core, h: History, ts: Millis, price: real, size: Volume, side: Aggressor,
                             category: FeeCategory, k: nat)
    requires Sound(core, h) && k < |Traded(core.book, price, size, side, ts).fills|
    ensures WithinLimit(MakerFill(Traded(core.book, price, size, side, ts).fills[k], price, ts, category), h.placed)
  {
    hide Walk, Accounted, SizeAccountedFor, Ordered;
    var fills, t := Traded(core.book, price, size, side, ts).fills, PrintOf(core.book, price, side, ts);
    var m := Matching(core.book.orders, t);
    FilledInPriorityOrder(core.book, price, size, side, ts);
    MatchingMember(core.book.orders, t, k);
    assert FillIsDue(m, fills, k, t, size, map[]);
    assert RestsAsPlaced(m[k], h);
  }

  lemma {:induction false} MatchingMember(orders: seq<Resting>, t: Print, k: nat)
    requires k < |Matching(orders, t)|
    ensures Matching(orders, t)[k] in orders && Matches(Matching(orders, t)[k], t.side, t.price, t.tick)
  {
    MatchingFrom(orders, t);
    if !Matches(orders[0], t.side, t.price, t.tick) {
      MatchingMember(orders[1..], t, k);
    } else if k > 0 {
      MatchingMember(orders[1..], t, k - 1);
    }
  }

  lemma TradeKeepsSound(category: FeeCategory, core: Core, h: History, ts: Millis, price: real, size: Volume,
                        side: Aggressor)
    requires Sound(core, h)
    ensures Sound(ApplyMarket(category, core, LastTrade(ts, price, size, side)), h)
  {
    assert Wf(core.book);
    hide Walk, Positioned, Ordered, LimitsRespected, Accounted, SizeAccountedFor, Wf, FilledSize;
    var walked := Traded(core.book, price, size, side, ts);
    var after := core.(book := core.book.(orders := walked.orders),
                       account := BookedAll(core.account, walked.fills, price, ts, category));
    assert after.book == ApplyTrade(core.book, price, size, side, ts);
    TradeEvolves(core.book, price, size, side, ts);
    EvolvedKeepsOrdered(core, after, h);
    EvolvedKeepsPositioned(core, after, h);
    BookedAllKeeps(core.account, walked.fills, price, ts, category);
    TradeFillsWithinLimit(core, h, ts, price, size, side, category);
    forall id | id in h.placed ensures SizeAccountedFor(after, h, id) {
      TradeKeepsSizes(core, after, h, walked, id, PrintOf(core.book, price, side, ts), size);
    }
    SameOrdersSound(after, WithMid(after), h);
  }

  lemma TradeKeepsSizes(core: Core, after: Core, h: History, walked: Walked, id: OrderId, t: Print, size: Volume)
    requires Sound(core, h) && id in h.placed
    requires walked == Walk(core.book.orders, t, size, map[])
    requires after.book.orders == walked.orders && after.pending == core.pending
    requires FilledSize(after.account.fills, id) == FilledSize(core.account.fills, id) + FilledBy(walked.fills, id)
    requires Wf(after.book) && Evolved(core.book.orders, walked.orders)
    ensures SizeAccountedFor(after, h, id)
  {
    assert SizeAccountedFor(core, h, id);
    WalkConserves(core.book.orders, t, size, map[], id);
    if id in h.cancelled {
      NotTracked(core, h, id);
      EvolvedNotTracked(core.book.orders, walked.orders, id);
      RestingSizeIsFound(core.book.orders, id);
      RestingSizeIsFound(walked.orders, id);
    }
  }

  lemma NotTracked(core: Core, h: History, id: OrderId)
    requires Positioned(core, h) && id in h.cancelled
    ensures !Tracks(core.book.orders, id) && id !in core.pending
  {
    forall k | 0 <= k < |core.book.orders| ensures core.book.orders[k].id != id {
      assert RestsAsPlaced(core.book.orders[k], h);
    }
    assert id in core.pending ==> PendsAsPlaced(core, id, h);
  }

  lemma MarketKeepsSound(category: FeeCategory, core: Core, h: History, event: MarketEvent)
    requires Sound(core, h)
    ensures Sound(ApplyMarket(category, core, event), h)
    ensures ApplyMarket(category, core, event).pending == core.pending
  {
    match event
    case BookSnapshot(_, bids, asks) =>
      FromPairsIsWf(bids);
      FromPairsIsWf(asks);
      SameOrdersSound(core, ApplyMarket(category, core, event), h);
    case PriceChange(_, changes) =>
      ChangesKeepWf(core.book, changes);
      SameOrdersSound(core, ApplyMarket(category, core, event), h);
    case LastTrade(ts, price, size, side) => TradeKeepsSound(category, core, h, ts, price, size, side);
    case TickSizeChange(_, tick) => SameOrdersSound(core, ApplyMarket(category, core, event), h);
  }

  // ---------- a placement reaches the book ----------

  ghost predicate ConservedBut(core: Core, h: History, but: OrderId) {
    forall id :: id in h.placed && id != but ==> SizeAccountedFor(core, h, id)
  }

  /** Everything except the size account of one order that is between two states. */
  ghost predicate SoundBut(core: Core, h: History, but: OrderId) {
    && Positioned(core, h) && ConservedBut(core, h, but) && Accounted(core.account)
    && LimitsRespected(core.account, h.placed) && Ordered(core, h)
  }

  lemma {:induction false} NoFillsNoSize(fills: seq<Fill>, id: OrderId)
    requires forall i :: 0 <= i < |fills| ==> fills[i].id != id
    ensures FilledSize(fills, id) == 0.0
  {
    if fills != [] { NoFillsNoSize(fills[..|fills| - 1], id); }
  }

  lemma {:induction false} FilledNonNegative(account: Account, placed: map<OrderId, Placement>, fills: seq<Fill>,
                                             id: OrderId)
    requires LimitsRespected(account, placed) && |fills| <= |account.fills| && fills == account.fills[..|fills|]
    ensures FilledSize(fills, id) >= 0.0
  {
    if fills != [] {
      var last := |fills| - 1;
      assert fills[last] == account.fills[last] && WithinLimit(account.fills[last], placed);
      assert fills[..last] == account.fills[..last];
      FilledNonNegative(account, placed, fills[..last], id);
    }
  }

  lemma UntrackedHasNoSize(orders: seq<Resting>, id: OrderId)
    requires Distinct(orders) && !Tracks(orders, id)
    ensures RestingSize(orders, id) == 0.0
  {
    RestingSizeIsFound(orders, id);
  }

  lemma TakenFromPending(core: Core, h: History, id: OrderId)
    requires Sound(core, h) && id in core.pending
    ensures SoundBut(core.(pending := core.pending - {id}), h, id)
    ensures id !in h.rested && !Tracks(core.book.orders, id) && id !in h.cancelled && id in h.placed
    ensures core.pending[id] == h.placed[id]
    ensures FilledSize(core.account.fills, id) == 0.0 && RestingSize(core.book.orders, id) == 0.0
  {
    var after := core.(pending := core.pending - {id});
    assert PendsAsPlaced(core, id, h);
    forall other | other in after.pending ensures PendsAsPlaced(after, other, h) {
      assert PendsAsPlaced(core, other, h);
    }
    forall other | other in h.placed && other != id ensures SizeAccountedFor(after, h, other) {
      assert SizeAccountedFor(core, h, other);
    }
    assert SizeAccountedFor(core, h, id);
    UntrackedHasNoSize(core.book.orders, id);
  }

  lemma TakerFillWithinLimit(core: Core, h: History, p: Placement, now: Millis, category: FeeCategory)
    requires Wf(core.book) && CrossesSpread(core.book, p.side, p.price) && Known(p, h.placed) && p.size > 0.0
    ensures var top := Opposite(core.book, p.side).value;
            var f := TakerFill(p, top.0, Min(p.size, top.1), now, category);
            WithinLimit(f, h.placed) && 0.0 < f.size <= p.size
  {
  }

  lemma FillKeepsSoundBut(core: Core, h: History, f: Fill)
    requires SoundBut(core, h, f.id) && WithinLimit(f, h.placed)
    ensures SoundBut(core.(account := Booked(core.account, f)), h, f.id)
  {
    var after := core.(account := Booked(core.account, f));
    BookedKeeps(core.account, f);
    forall id | id in h.placed && id != f.id ensures SizeAccountedFor(after, h, id) {
      assert SizeAccountedFor(core, h, id);
    }
    forall i | 0 <= i < |after.account.fills| ensures WithinLimit(after.account.fills[i], h.placed) {
      if i < |core.account.fills| { assert WithinLimit(core.account.fills[i], h.placed); }
    }
    forall id | id in after.pending ensures PendsAsPlaced(after, id, h) {
      assert PendsAsPlaced(core, id, h);
    }
  }

  lemma RestKeepsPositioned(core: Core, h: History, p: Placement, size: real, now: Millis)
    requires Positioned(core, h) && Known(p, h.placed) && p.id !in h.cancelled && p.id !in core.pending
    requires size > 0.0 && !Tracks(core.book.orders, p.id)
    ensures var after := core.(book := AddOrder(core.book, p.id, p.side, p.price, size, now));
            Positioned(after, h.(rested := h.rested + [p.id]))
  {
    var after := core.(book := AddOrder(core.book, p.id, p.side, p.price, size, now));
    var later := h.(rested := h.rested + [p.id]);
    AddEvolves(core.book, p.id, p.side, p.price, size, now);
    forall i | 0 <= i < |after.book.orders| ensures RestsAsPlaced(after.book.orders[i], later) {
      if i < |core.book.orders| { assert RestsAsPlaced(core.book.orders[i], h); }
    }
    forall id | id in after.pending ensures PendsAsPlaced(after, id, later) {
      assert PendsAsPlaced(core, id, h);
      TracksConcat(core.book.orders, [NewOrder(core.book, p.id, p.side, p.price, size, now)], id);
    }
  }

  lemma RestKeepsOrdered(core: Core, h: History, p: Placement, size: real, now: Millis)
    requires Ordered(core, h) && p.id in h.placed && p.id !in core.pending && p.id !in h.rested
    requires size > 0.0 && !Tracks(core.book.orders, p.id)
    ensures var after := core.(book := AddOrder(core.book, p.id, p.side, p.price, size, now));
            Ordered(after, h.(rested := h.rested + [p.id]))
  {
    var orders := AddOrder(core.book, p.id, p.side, p.price, size, now).orders;
    var rested := h.rested + [p.id];
    forall i | 0 <= i < |orders| ensures orders[i].id in rested {
      if i < |core.book.orders| { assert core.book.orders[i].id in h.rested; }
    }
    forall i, j | 0 <= i < j < |orders| ensures RestedInOrder(rested, orders[i].id, orders[j].id) {
      assert core.book.orders[i].id in h.rested;
      var a :| 0 <= a < |h.rested| && h.rested[a] == core.book.orders[i].id;
      if j < |core.book.orders| {
        assert RestedInOrder(h.rested, core.book.orders[i].id, core.book.orders[j].id);
        var b, c :| 0 <= b < c < |h.rested| && h.rested[b] == core.book.orders[i].id
            && h.rested[c] == core.book.orders[j].id;
        assert rested[b] == orders[i].id && rested[c] == orders[j].id;
      } else {
        assert rested[a] == orders[i].id && rested[|h.rested|] == orders[j].id;
      }
    }
  }

  /** The order comes to rest with `size`; what it was filled on the way in is already booked. */
  lemma RestKeepsSound(core: Core, h: History, p: Placement, size: real, now: Millis)
    requires SoundBut(core, h, p.id) && Known(p, h.placed) && p.id !in h.cancelled && p.id !in core.pending
             && p.id !in h.rested
    requires size > 0.0 && !Tracks(core.book.orders, p.id)
    requires FilledSize(core.account.fills, p.id) + size == p.size
    ensures Sound(core.(book := AddOrder(core.book, p.id, p.side, p.price, size, now)), h.(rested := h.rested + [p.id]))
  {
    var after := core.(book := AddOrder(core.book, p.id, p.side, p.price, size, now));
    var later := h.(rested := h.rested + [p.id]);
    RestKeepsPositioned(core, h, p, size, now);
    RestKeepsOrdered(core, h, p, size, now);
    forall id | id in later.placed ensures SizeAccountedFor(after, later, id) {
      RestingSizeConcat(core.book.orders, [NewOrder(core.book, p.id, p.side, p.price, size, now)], id);
      if id == p.id {
        UntrackedHasNoSize(core.book.orders, id);
      } else {
        assert SizeAccountedFor(core, h, id);
      }
    }
  }

  lemma ClosedKeepsSound(core: Core, h: History, p: Placement)
    requires SoundBut(core, h, p.id) && Known(p, h.placed) && p.id !in h.cancelled && p.id !in core.pending
    requires !Tracks(core.book.orders, p.id) && FilledSize(core.account.fills, p.id) == p.size
    ensures Sound(core, h)
  {
    UntrackedHasNoSize(core.book.orders, p.id);
  }

  /** What a taker fill leaves of an arriving order, before the rest of it comes to rest. */
  lemma PaidKeeps(category: FeeCategory, core: Core, h: History, p: Placement, now: Millis)
    requires Sound(core, h) && Known(p, h.placed) && p.size > 0.0 && p.id in core.pending
    requires CrossesSpread(core.book, p.side, p.price)
    ensures var top := Opposite(core.book, p.side).value;
            var f := TakerFill(p, top.0, Min(p.size, top.1), now, category);
            var paid := core.(pending := core.pending - {p.id}, account := Booked(core.account, f));
            && SoundBut(paid, h, p.id) && 0.0 < f.size <= p.size && f.size == Min(p.size, top.1)
            && FilledSize(paid.account.fills, p.id) == f.size
  {
    hide FilledSize;
    var top := Opposite(core.book, p.side).value;
    var f := TakerFill(p, top.0, Min(p.size, top.1), now, category);
    TakenFromPending(core, h, p.id);
    TakerFillWithinLimit(core, h, p, now, category);
    FillKeepsSoundBut(core.(pending := core.pending - {p.id}), h, f);
    BookedKeeps(core.account, f);
  }

  /** Arrival of a placement; `add_our_order` is never called with a duplicate id or an empty size. */
  lemma PlaceKeepsSound(category: FeeCategory, core: Core, h: History, p: Placement, now: Millis)
    requires Sound(core, h) && Known(p, h.placed) && p.size > 0.0
    ensures var after := ApplyPlace(category, core, p, now);
            Sound(after, Noted(h, core, after, Timed(now, PlaceArrival(p)))) && p.id !in after.pending
    ensures ApplyPlace(category, core, p, now).pending == core.pending - {p.id}
  {
    hide Sound, SoundBut, FilledSize, AddOrder, TakerFill, Booked;
    if p.id in core.pending {
      TakenFromPending(core, h, p.id);
      var arrived := core.(pending := core.pending - {p.id});
      var after := ApplyPlace(category, core, p, now);
      if !p.postOnly && CrossesSpread(core.book, p.side, p.price) {
        var top := Opposite(core.book, p.side).value;
        var size := Min(p.size, top.1);
        var paid := arrived.(account := Booked(core.account, TakerFill(p, top.0, size, now, category)));
        PaidKeeps(category, core, h, p, now);
        if p.size - size > 0.0 {
          RestKeepsSound(paid, h, p, p.size - size, now);
          RestsOnceAdded(core.book, p, p.size - size, now);
        } else {
          ClosedKeepsSound(paid, h, p);
        }
      } else {
        RestKeepsSound(arrived, h, p, p.size, now);
        RestsOnceAdded(core.book, p, p.size, now);
      }
    }
  }

  lemma RestsOnceAdded(book: Book, p: Placement, size: real, now: Millis)
    requires CanAdd(book, p.id, size)
    ensures Tracks(AddOrder(book, p.id, p.side, p.price, size, now).orders, p.id)
  {
    assert AddOrder(book, p.id, p.side, p.price, size, now).orders[|book.orders|].id == p.id;
  }

  // ---------- a cancel reaches the book ----------

  lemma {:induction false} WithoutRestingSize(orders: seq<Resting>, id: OrderId, other: OrderId)
    ensures RestingSize(Without(orders, id), other) == if other == id then 0.0 else RestingSize(orders, other)
  {
    if orders != [] {
      WithoutRestingSize(orders[1..], id, other);
    }
  }

  lemma CancelKeepsPositioned(core: Core, h: History, id: OrderId)
    requires Positioned(core, h) && Ordered(core, h)
    ensures var after, later := ApplyCancel(core, id), h.(cancelled := h.cancelled + {id});
            && Positioned(after, h) && Ordered(after, h) && Positioned(after, later) && Ordered(after, later)
            && !Tracks(after.book.orders, id) && id !in after.pending
  {
    var after, later := ApplyCancel(core, id), h.(cancelled := h.cancelled + {id});
    var unpended := core.(pending := core.pending - {id});
    forall other | other in unpended.pending ensures PendsAsPlaced(unpended, other, h) {
      assert PendsAsPlaced(core, other, h);
    }
    RemoveEvolves(core.book, id);
    EvolvedKeepsOrdered(unpended, after, h);
    EvolvedKeepsPositioned(unpended, after, h);
    forall i | 0 <= i < |after.book.orders| ensures RestsAsPlaced(after.book.orders[i], later) {
      assert RestsAsPlaced(after.book.orders[i], h);
    }
    forall other | other in after.pending ensures PendsAsPlaced(after, other, later) {
      assert PendsAsPlaced(after, other, h);
    }
  }

  lemma OpenNonNegative(core: Core, h: History, id: OrderId)
    requires Positioned(core, h) && (forall p :: p in h.placed ==> h.placed[p].size > 0.0)
    ensures Open(core, id) >= 0.0
  {
    RestingSizeIsFound(core.book.orders, id);
    if id in core.pending { assert PendsAsPlaced(core, id, h); }
    if Tracks(core.book.orders, id) { assert WfOrder(Find(core.book.orders, id).value); }
  }

  lemma CancelKeepsSound(core: Core, h: History, id: OrderId)
    requires Sound(core, h) && (forall p :: p in h.placed ==> h.placed[p].size > 0.0)
    ensures var after := ApplyCancel(core, id);
            Sound(after, Noted(h, core, after, Timed(0, CancelArrival(id))))
    ensures !Tracks(ApplyCancel(core, id).book.orders, id)
  {
    var after := ApplyCancel(core, id);
    var later := if id in h.placed then h.(cancelled := h.cancelled + {id}) else h;
    CancelKeepsPositioned(core, h, id);
    forall other | other in h.placed ensures SizeAccountedFor(after, later, other) {
      assert SizeAccountedFor(core, h, other);
      WithoutRestingSize(core.book.orders, id, other);
      OpenNonNegative(core, h, other);
      FilledNonNegative(core.account, h.placed, core.account.fills, other);
    }
  }

  // ---------- one event ----------

  /** Delivering any event keeps the desk consistent. */
  lemma DeliverKeepsConsistent(category: FeeCategory, d: Desk, e: Timed)
    requires Consistent(d) && (e.payload.PlaceArrival? ==> Known(e.payload.order, d.history.placed))
    ensures Consistent(Delivered(category, d, e))
  {
    match e.payload
    case Market(event) => MarketKeepsSound(category, d.core, d.history, event);
    case PlaceArrival(p) => PlaceKeepsSound(category, d.core, d.history, p, e.ts);
    case CancelArrival(id) => CancelKeepsSound(d.core, d.history, id);
  }

  lemma SameLedgerSound(core: Core, h: History, later: History)
    requires Sound(core, h) && later.placed == h.placed && later.cancelled == h.cancelled && later.rested == h.rested
    ensures Sound(core, later)
  {
    forall i | 0 <= i < |core.book.orders| ensures RestsAsPlaced(core.book.orders[i], later) {
      assert RestsAsPlaced(core.book.orders[i], h);
    }
    forall id | id in core.pending ensures PendsAsPlaced(core, id, later) { assert PendsAsPlaced(core, id, h); }
    forall id | id in later.placed ensures SizeAccountedFor(core, later, id) { assert SizeAccountedFor(core, h, id); }
  }

  // ---------- one action ----------

  lemma {:induction false} EnqueuedMembers(queue: seq<Timed>, e: Timed)
    ensures |Enqueue(queue, e)| == |queue| + 1
    ensures forall x :: x in Enqueue(queue, e) <==> x in queue || x == e
  {
    if queue != [] && !(e.ts < queue[0].ts) {
      EnqueuedMembers(queue[1..], e);
      assert queue == [queue[0]] + queue[1..];
    }
  }

  lemma EnqueueKeepsKnown(queue: seq<Timed>, e: Timed, placed: map<OrderId, Placement>)
    requires KnownArrivals(queue, placed) && (e.payload.PlaceArrival? ==> Known(e.payload.order, placed))
    ensures KnownArrivals(Enqueue(queue, e), placed)
  {
    EnqueuedMembers(queue, e);
    var after := Enqueue(queue, e);
    forall i | 0 <= i < |after| && after[i].payload.PlaceArrival? ensures Known(after[i].payload.order, placed) {
      assert after[i] in after;
    }
  }

  lemma EnqueueKeepsScheduled(queue: seq<Timed>, e: Timed, p: Placement)
    ensures Scheduled(queue, p) || e.payload == PlaceArrival(p) ==> Scheduled(Enqueue(queue, e), p)
  {
    EnqueuedMembers(queue, e);
    if Scheduled(queue, p) {
      var i :| 0 <= i < |queue| && queue[i].payload == PlaceArrival(p);
      assert queue[i] in Enqueue(queue, e);
    } else if e.payload == PlaceArrival(p) {
      assert e in Enqueue(queue, e);
    }
  }

  lemma FreshIdUnused(d: Desk)
    requires Consistent(d)
    ensures d.nextId !in d.history.placed && d.nextId !in d.history.cancelled && d.nextId !in d.history.rested
    ensures !Tracks(d.core.book.orders, d.nextId) && d.nextId !in d.core.pending
    ensures FilledSize(d.core.account.fills, d.nextId) == 0.0 && RestingSize(d.core.book.orders, d.nextId) == 0.0
  {
    forall k | 0 <= k < |d.core.book.orders| ensures d.core.book.orders[k].id != d.nextId {
      assert RestsAsPlaced(d.core.book.orders[k], d.history);
    }
    assert d.nextId in d.core.pending ==> PendsAsPlaced(d.core, d.nextId, d.history);
    forall i | 0 <= i < |d.core.account.fills| ensures d.core.account.fills[i].id != d.nextId {
      assert WithinLimit(d.core.account.fills[i], d.history.placed);
    }
    NoFillsNoSize(d.core.account.fills, d.nextId);
    UntrackedHasNoSize(d.core.book.orders, d.nextId);
  }

  lemma PlacedKeepsSound(core: Core, h: History, p: Placement)
    requires Sound(core, h) && p.id !in h.placed && p.id !in h.cancelled && p.id !in h.rested && p.id !in core.pending
    requires !Tracks(core.book.orders, p.id)
    requires FilledSize(core.account.fills, p.id) == 0.0 && RestingSize(core.book.orders, p.id) == 0.0
    ensures Sound(core.(pending := core.pending[p.id := p]), h.(placed := h.placed[p.id := p]))
  {
    var after, later := core.(pending := core.pending[p.id := p]), h.(placed := h.placed[p.id := p]);
    forall i | 0 <= i < |core.book.orders| ensures RestsAsPlaced(core.book.orders[i], later) {
      assert RestsAsPlaced(core.book.orders[i], h);
    }
    forall id | id in after.pending ensures PendsAsPlaced(after, id, later) {
      if id != p.id { assert PendsAsPlaced(core, id, h); }
    }
    forall id | id in later.placed ensures SizeAccountedFor(after, later, id) {
      if id != p.id { assert SizeAccountedFor(core, h, id); }
    }
    forall i | 0 <= i < |core.account.fills| ensures WithinLimit(core.account.fills[i], later.placed) {
      assert WithinLimit(core.account.fills[i], h.placed);
    }
  }

  /** Submitting any acceptable action keeps the desk consistent. */
  lemma PerformKeepsConsistent(latency: Latency, d: Desk, a: Action)
    requires Consistent(d) && Acceptable(a)
    ensures Consistent(Perform(latency, d, a))
    ensures AllScheduled(d) ==> AllScheduled(Perform(latency, d, a))
  {
    var after := Perform(latency, d, a);
    match a
    case PlaceOrder(side, price, size, postOnly) =>
      var p := Placement(d.nextId, side, price, size, postOnly);
      FreshIdUnused(d);
      PlacedKeepsSound(d.core, d.history, p);
      assert KnownArrivals(d.queue, after.history.placed);
      EnqueueKeepsKnown(d.queue, Timed(latency(d.draws, d.now), PlaceArrival(p)), after.history.placed);
      forall id | id in after.core.pending && AllScheduled(d) ensures Scheduled(after.queue, after.core.pending[id]) {
        EnqueueKeepsScheduled(d.queue, Timed(latency(d.draws, d.now), PlaceArrival(p)), after.core.pending[id]);
      }
    case CancelOrder(id) =>
      SameLedgerSound(d.core, d.history, after.history);
      EnqueueKeepsKnown(d.queue, Timed(latency(d.draws, d.now), CancelArrival(id)), d.history.placed);
      forall other | other in after.core.pending && AllScheduled(d)
        ensures Scheduled(after.queue, after.core.pending[other]) {
        EnqueueKeepsScheduled(d.queue, Timed(latency(d.draws, d.now), CancelArrival(id)), after.core.pending[other]);
      }
  }

  lemma {:induction false} PerformAllKeepsConsistent(latency: Latency, d: Desk, actions: seq<Action>)
    requires Consistent(d) && (forall i :: 0 <= i < |actions| ==> Acceptable(actions[i]))
    ensures Consistent(PerformAll(latency, d, actions))
    ensures AllScheduled(d) ==> AllScheduled(PerformAll(latency, d, actions))
  {
    if actions != [] {
      PerformAllKeepsConsistent(latency, d, actions[..|actions| - 1]);
      PerformKeepsConsistent(latency, PerformAll(latency, d, actions[..|actions| - 1]), actions[|actions| - 1]);
    }
  }

  lemma CalledKeepsConsistent<S>(strategy: Strategy<S>, latency: Latency, d: Desk, state: S, e: Timed, seqNo: nat)
    requires Consistent(d)
    ensures Consistent(Called(strategy, latency, d, state, e, seqNo).0)
    ensures AllScheduled(d) ==> AllScheduled(Called(strategy, latency, d, state, e, seqNo).0)
  {
    var reply := strategy.onEvent(state, ViewOf(d), e, seqNo);
    var performed := PerformAll(latency, d, Allowed(reply.actions));
    PerformAllKeepsConsistent(latency, d, Allowed(reply.actions));
    SameLedgerSound(performed.core, performed.history, Called(strategy, latency, d, state, e, seqNo).0.history);
  }

  /** Taking the head off the queue and delivering it. */
  function DeliverHead(category: FeeCategory, d: Desk): Desk
    requires d.queue != []
  {
    Delivered(category, d.(queue := d.queue[1..]), d.queue[0])
  }

  lemma DeliverHeadKeeps(category: FeeCategory, d: Desk)
    requires Consistent(d) && d.queue != []
    ensures Consistent(DeliverHead(category, d))
    ensures AllScheduled(d) ==> AllScheduled(DeliverHead(category, d))
  {
    var popped, e := d.(queue := d.queue[1..]), d.queue[0];
    assert forall i :: 0 <= i < |popped.queue| ==> popped.queue[i] == d.queue[i + 1];
    DeliverKeepsConsistent(category, popped, e);
    var after := DeliverHead(category, d);
    PendingAfter(category, popped, e);
    if AllScheduled(d) {
      forall id | id in after.core.pending ensures Scheduled(after.queue, after.core.pending[id]) {
        var i :| 0 <= i < |d.queue| && d.queue[i].payload == PlaceArrival(d.core.pending[id]);
        assert PendsAsPlaced(d.core, id, d.history);
        assert after.queue[i - 1] == d.queue[i];
      }
    }
  }

  /** An arrival takes its own order out of the pending ones; nothing else is added or removed. */
  lemma PendingAfter(category: FeeCategory, d: Desk, e: Timed)
    ensures var after := Delivered(category, d, e).core.pending;
            && (e.payload.Market? ==> after == d.core.pending)
            && (e.payload.PlaceArrival? ==> after == d.core.pending - {e.payload.order.id})
            && (e.payload.CancelArrival? ==> after == d.core.pending - {e.payload.id})
  {
    match e.payload
    case Market(event) =>
    case PlaceArrival(p) =>
      if p.id !in d.core.pending { assert d.core.pending - {p.id} == d.core.pending; }
    case CancelArrival(id) =>
  }
}
