/**
 What the market events leave of the public book and reach of our orders, said level by level and
 order by order: which price is best, which change of a message counts, which trade fills whom.
 */
module PublicBook {
  import opened Prelude
  import opened OrderBook
  import opened BookInvariant
  import opened FillBracket
  import opened Fees
  import opened TradingDesk
  import opened DeskInvariant

  // ---------- the best levels ----------

  /** No bid is higher. */
  ghost predicate IsBestBid(book: Book, price: real) {
    price in book.bids && forall p :: p in book.bids ==> p <= price
  }

  /** No ask is lower. */
  ghost predicate IsBestAsk(book: Book, price: real) {
    price in book.asks && forall p :: p in book.asks ==> price <= p
  }

  /** The best bid is None iff there is no bid, otherwise the highest one with its size. */
  lemma BestBidIs(book: Book)
    ensures BestBid(book) == None <==> forall p :: p !in book.bids
    ensures BestBid(book).Some? ==> IsBestBid(book, BestBid(book).value.0)
    ensures forall price :: IsBestBid(book, price) ==> BestBid(book) == Some((price, book.bids[price]))
  {
    if book.bids.Keys != {} {
      var x := Pick(book.bids.Keys);
      assert x in book.bids;
    }
  }

  /** The best ask is None iff there is no ask, otherwise the lowest one with its size. */
  lemma BestAskIs(book: Book)
    ensures BestAsk(book) == None <==> forall p :: p !in book.asks
    ensures BestAsk(book).Some? ==> IsBestAsk(book, BestAsk(book).value.0)
    ensures forall price :: IsBestAsk(book, price) ==> BestAsk(book) == Some((price, book.asks[price]))
  {
    if book.asks.Keys != {} {
      var x := Pick(book.asks.Keys);
      assert x in book.asks;
    }
  }

  /** Half the sum of the highest bid and the lowest ask. */
  ghost predicate IsMid(book: Book, mid: real) {
    exists bid, ask :: IsBestBid(book, bid) && IsBestAsk(book, ask) && mid + mid == bid + ask
  }

  /** The mid is None iff one of the sides is empty, otherwise half the sum of the two best prices. */
  lemma MidIs(book: Book)
    ensures Mid(book) == None <==> (forall p :: p !in book.bids) || (forall p :: p !in book.asks)
    ensures forall mid :: Mid(book) == Some(mid) <==> IsMid(book, mid)
  {
    BestBidIs(book);
    BestAskIs(book);
    hide BestBid, BestAsk;
    forall mid ensures Mid(book) == Some(mid) <==> IsMid(book, mid) {
      if Mid(book) == Some(mid) {
        assert IsBestBid(book, BestBid(book).value.0) && IsBestAsk(book, BestAsk(book).value.0);
      }
    }
  }

  /** An opposing level at the limit price or better for an order of this side. */
  ghost predicate Tradable(book: Book, side: Side, limit: real, price: real) {
    if side.Bid? then price in book.asks && price <= limit else price in book.bids && price >= limit
  }

  /** A price crosses the spread iff some opposing level is there or better. */
  lemma CrossesIff(book: Book, side: Side, limit: real)
    ensures CrossesSpread(book, side, limit) <==> exists price :: Tradable(book, side, limit, price)
  {
    BestBidIs(book);
    BestAskIs(book);
    hide BestBid, BestAsk;
    if CrossesSpread(book, side, limit) {
      assert Tradable(book, side, limit, Opposite(book, side).value.0);
    }
    if exists price :: Tradable(book, side, limit, price) {
      var price :| Tradable(book, side, limit, price);
      assert Opposite(book, side).Some?;
    }
  }

  // ---------- level changes and snapshots ----------

  /** Change `i` of a message is about this side and price, and no later one is. */
  ghost predicate LastNaming(changes: seq<PriceLevelChange>, i: nat, side: Aggressor, price: real) {
    && i < |changes| && changes[i].side == side && changes[i].price == price
    && forall j :: i < j < |changes| ==> !(changes[j].side == side && changes[j].price == price)
  }

  /** The bids for BUY changes, the asks for SELL changes. */
  function SideOf(book: Book, side: Aggressor): Levels {
    match side
    case Buy => book.bids
    case Sell => book.asks
  }

  /** `after` has at this price what the last change naming it says, or what `before` had. */
  ghost predicate LevelFollows(before: Book, after: Book, changes: seq<PriceLevelChange>, side: Aggressor, price: real)
  {
    && (forall i: nat :: LastNaming(changes, i, side, price) ==>
          && (price in SideOf(after, side) <==> changes[i].size > 0.0)
          && (changes[i].size > 0.0 ==> SideOf(after, side)[price] == changes[i].size))
    && ((forall i: nat :: !LastNaming(changes, i, side, price)) ==>
          && (price in SideOf(after, side) <==> price in SideOf(before, side))
          && (price in SideOf(before, side) ==> SideOf(after, side)[price] == SideOf(before, side)[price]))
  }

  lemma LastNamingShorter(changes: seq<PriceLevelChange>, i: nat, side: Aggressor, price: real)
    requires changes != []
    ensures var init, n := changes[..|changes| - 1], |changes| - 1;
            if changes[n].side == side && changes[n].price == price
            then LastNaming(changes, i, side, price) <==> i == n
            else LastNaming(changes, i, side, price) <==> LastNaming(init, i, side, price)
  {
    var init := changes[..|changes| - 1];
    assert forall j :: 0 <= j < |init| ==> init[j] == changes[j];
  }

  lemma OneChange(book: Book, c: PriceLevelChange, side: Aggressor, price: real)
    ensures LevelFollows(book, ApplyPriceChange(book, c.side, c.price, c.size), [c], side, price)
  {
    assert LastNaming([c], 0, side, price) <==> c.side == side && c.price == price;
  }

  lemma FollowsOn(before: Book, mid: Book, after: Book, changes: seq<PriceLevelChange>, side: Aggressor, price: real)
    requires changes != [] && LevelFollows(before, mid, changes[..|changes| - 1], side, price)
    requires LevelFollows(mid, after, [changes[|changes| - 1]], side, price)
    ensures LevelFollows(before, after, changes, side, price)
  {
    hide SideOf;
    var init, n := changes[..|changes| - 1], |changes| - 1;
    assert LastNaming([changes[n]], 0, side, price) <==> changes[n].side == side && changes[n].price == price;
    forall i: nat
      ensures if changes[n].side == side && changes[n].price == price
              then LastNaming(changes, i, side, price) <==> i == n
              else LastNaming(changes, i, side, price) <==> LastNaming(init, i, side, price)
    {
      LastNamingShorter(changes, i, side, price);
    }
    if changes[n].side == side && changes[n].price == price { assert LastNaming(changes, n, side, price); }
  }

  /** The changes of a message are made in order: at every price the last one naming it decides. */
  lemma {:induction false} LastChangeWins(book: Book, changes: seq<PriceLevelChange>, side: Aggressor, price: real)
    ensures LevelFollows(book, ApplyChanges(book, changes), changes, side, price)
    ensures ApplyChanges(book, changes).orders == book.orders && ApplyChanges(book, changes).tick == book.tick
  {
    hide LevelFollows;
    if changes == [] {
      NoChange(book, side, price);
    } else {
      var init, last := changes[..|changes| - 1], changes[|changes| - 1];
      LastChangeWins(book, init, side, price);
      OneChange(ApplyChanges(book, init), last, side, price);
      FollowsOn(book, ApplyChanges(book, init), ApplyChanges(book, changes), changes, side, price);
    }
  }

  lemma NoChange(book: Book, side: Aggressor, price: real)
    ensures LevelFollows(book, book, [], side, price)
  {
  }

  /** A price_change message, on either engine: levels as the last change naming them says, nothing else moves. */
  lemma PriceChangeLeaves(category: FeeCategory, core: Core, event: MarketEvent, side: Aggressor, price: real)
    requires event.PriceChange?
    ensures var after := ApplyMarket(category, core, event);
            && LevelFollows(core.book, after.book, event.changes, side, price)
            && after.book.orders == core.book.orders && after.book.tick == core.book.tick
            && after.account.fills == core.account.fills && after.pending == core.pending
  {
    LastChangeWins(core.book, event.changes, side, price);
  }

  /** The last pair of a snapshot that gives the price a positive size. */
  ghost predicate LastPositive(pairs: seq<(real, real)>, i: nat, price: real) {
    && i < |pairs| && pairs[i].0 == price && pairs[i].1 > 0.0
    && forall j :: i < j < |pairs| && pairs[j].0 == price ==> pairs[j].1 <= 0.0
  }

  /** The levels are the positive pairs and nothing else. */
  ghost predicate LevelListed(levels: Levels, pairs: seq<(real, real)>, price: real) {
    && (price in levels <==> exists i: nat :: LastPositive(pairs, i, price))
    && (forall i: nat :: LastPositive(pairs, i, price) ==> price in levels && levels[price] == pairs[i].1)
  }

  lemma {:induction false} LastPositiveExists(pairs: seq<(real, real)>, i: nat, price: real)
    requires i < |pairs| && pairs[i].0 == price && pairs[i].1 > 0.0
    ensures exists k: nat :: LastPositive(pairs, k, price)
    decreases |pairs| - i
  {
    if j: nat :| i < j < |pairs| && pairs[j].0 == price && pairs[j].1 > 0.0 {
      LastPositiveExists(pairs, j, price);
    } else {
      assert LastPositive(pairs, i, price);
    }
  }

  lemma PairsAreListed(pairs: seq<(real, real)>, price: real)
    ensures LevelListed(FromPairs(pairs), pairs, price)
  {
    LastPositivePairWins(pairs, price);
    if price in FromPairs(pairs) {
      var i :| 0 <= i < |pairs| && pairs[i].0 == price && pairs[i].1 > 0.0;
      LastPositiveExists(pairs, i, price);
    }
  }

  /** A book snapshot, on either engine: bids from its bids, asks from its asks, our orders as they were. */
  lemma SnapshotLeaves(category: FeeCategory, core: Core, event: MarketEvent, price: real)
    requires event.BookSnapshot?
    ensures var after := ApplyMarket(category, core, event);
            && LevelListed(after.book.bids, event.bids, price) && LevelListed(after.book.asks, event.asks, price)
            && after.book.orders == core.book.orders && after.book.tick == core.book.tick
            && after.account.fills == core.account.fills && after.pending == core.pending
  {
    PairsAreListed(event.bids, price);
    PairsAreListed(event.asks, price);
  }

  /** A new tick changes the tick; the levels, our orders and the accounts stay. */
  lemma TickChangeLeaves(category: FeeCategory, core: Core, event: MarketEvent)
    requires event.TickSizeChange?
    ensures var after := ApplyMarket(category, core, event);
            && after.book.tick == event.newTick && after.book.bids == core.book.bids
               && after.book.asks == core.book.asks
            && after.book.orders == core.book.orders && after.account == core.account && after.pending == core.pending
  {
  }

  // ---------- trades ----------

  /**
   A trade can fill our order: a SELL trade a bid at its price or higher, a BUY trade an ask at its
   price or lower, in either case in the same tick level.
   */
  ghost predicate InReach(o: Resting, price: real, aggressor: Aggressor, tick: Tick) {
    && (match o.side
        case Bid => aggressor.Sell? && price <= o.price
        case Ask => aggressor.Buy? && o.price <= price)
    && Round(o.price / tick) == Round(price / tick)
  }

  /** The public volume in front of an order: what was there when it came, less what has left since. */
  function Ahead(o: Resting, public: real): real {
    var gone := if o.levelAtPlacement > public then o.levelAtPlacement - public else 0.0;
    if o.queueAhead > gone then o.queueAhead - gone else 0.0
  }

  function PublicSize(book: Book, side: Side, price: real): real {
    match side
    case Bid => if price in book.bids then book.bids[price] else 0.0
    case Ask => if price in book.asks then book.asks[price] else 0.0
  }

  lemma QueuePositionIs(book: Book, o: Resting)
    ensures QueuePosition(o, LevelsOf(book, o.side)) == Ahead(o, PublicSize(book, o.side, o.price))
  {
  }

  /** A fresh order stands behind all that was public; as the level moves, behind the least it has been. */
  lemma FreshQueuePosition(book: Book, id: OrderId, side: Side, price: real, size: real, at: Millis, later: Book)
    requires CanAdd(book, id, size) && PublicSize(book, side, price) >= 0.0 && PublicSize(later, side, price) >= 0.0
    ensures var orders := AddOrder(book, id, side, price, size, at).orders;
            && orders[..|orders| - 1] == book.orders
            && var o := orders[|orders| - 1];
               && o.id == id && o.side == side && o.price == price && o.size == size && o.placedAt == at
               && QueuePosition(o, LevelsOf(later, side))
                  == if PublicSize(later, side, price) < PublicSize(book, side, price)
                     then PublicSize(later, side, price) else PublicSize(book, side, price)
  {
  }

  lemma MatchesIff(o: Resting, book: Book, price: real, aggressor: Aggressor, at: int)
    ensures var t := PrintOf(book, price, aggressor, at);
            Matches(o, t.side, t.price, t.tick) <==> InReach(o, price, aggressor, book.tick)
  {
  }

  /** An order out of a trade's reach is neither filled nor moved. */
  lemma OutOfReachUntouched(book: Book, price: real, volume: Volume, aggressor: Aggressor, at: int, o: Resting)
    requires Wf(book) && o in book.orders && !InReach(o, price, aggressor, book.tick)
    ensures Find(ApplyTrade(book, price, volume, aggressor, at).orders, o.id) == Some(o)
    ensures FilledBy(Traded(book, price, volume, aggressor, at).fills, o.id) == 0.0
  {
    MatchesIff(o, book, price, aggressor, at);
    var i :| 0 <= i < |book.orders| && book.orders[i] == o;
    FindAt(book.orders, i);
    UnreachedUntouched(book.orders, PrintOf(book, price, aggressor, at), volume, map[], o.id);
  }

  lemma {:induction false} FindAt(orders: seq<Resting>, i: nat)
    requires Distinct(orders) && i < |orders|
    ensures Tracks(orders, orders[i].id) && Find(orders, orders[i].id) == Some(orders[i])
  {
    if i > 0 {
      TailDistinct(orders);
      FindAt(orders[1..], i - 1);
    }
  }

  /**
   The first of our orders that a trade can reach gets what exceeds the public volume in front of
   it, up to its size, and rests on with what is left of it, moved up by the traded volume.
   */
  lemma FirstInReach(book: Book, price: real, volume: Volume, aggressor: Aggressor, at: int, i: nat)
    requires Wf(book) && i < |book.orders| && InReach(book.orders[i], price, aggressor, book.tick)
    requires forall j :: 0 <= j < i ==> !InReach(book.orders[j], price, aggressor, book.tick)
    ensures var o := book.orders[i];
            var spare := volume - Ahead(o, PublicSize(book, o.side, o.price));
            var filled := if spare <= 0.0 then 0.0 else if spare < o.size then spare else o.size;
            var after := ApplyTrade(book, price, volume, aggressor, at).orders;
            && FilledBy(Traded(book, price, volume, aggressor, at).fills, o.id) == filled
            && (Tracks(after, o.id) <==> filled < o.size)
            && (filled < o.size ==>
                  var left, public := Find(after, o.id).value, PublicSize(book, o.side, o.price);
                  && left.size == o.size - filled && left.side == o.side && left.price == o.price
                  && Ahead(left, public) == if spare <= 0.0 then -spare else 0.0)
  {
    var o, t := book.orders[i], PrintOf(book, price, aggressor, at);
    assert forall j :: 0 <= j < |book.orders| ==> WfOrder(book.orders[j]);
    forall j | 0 <= j <= i
      ensures Matches(book.orders[j], t.side, t.price, t.tick)
              <==> InReach(book.orders[j], price, aggressor, book.tick)
    {
      MatchesIff(book.orders[j], book, price, aggressor, at);
    }
    FirstMatchHit(book.orders, t, volume, i);
    var h := HitOne(o, t, volume, map[]);
    LoneHit(o, t, volume);
    LoneLeft(book, o, t, volume);
    assert InFront(o, t.levels, map[]) == Ahead(o, PublicSize(book, o.side, o.price));
  }

  /** Before the first order it reaches, a trade meets only orders it skips. */
  lemma {:induction false} FirstMatchHit(orders: seq<Resting>, t: Print, left: real, i: nat)
    requires Distinct(orders) && i < |orders| && Matches(orders[i], t.side, t.price, t.tick)
    requires forall j :: 0 <= j < i ==> !Matches(orders[j], t.side, t.price, t.tick)
    ensures var h, w, id := HitOne(orders[i], t, left, map[]), Walk(orders, t, left, map[]), orders[i].id;
            Find(w.orders, id) == FirstOf(h.kept) && FilledBy(w.fills, id) == FilledBy(h.fills, id)
  {
    TailDistinct(orders);
    if i == 0 {
      FirstHit(orders, t, left);
    } else {
      var rest := Walk(orders[1..], t, left, map[]);
      assert Walk(orders, t, left, map[]) == Walked([orders[0]] + rest.orders, [] + rest.fills);
      FirstMatchHit(orders[1..], t, left, i - 1);
      assert orders[1..][i - 1] == orders[i] && orders[0].id != orders[i].id;
      FindConcat([orders[0]], rest.orders, orders[i].id);
      assert [] + rest.fills == rest.fills;
    }
  }

  lemma FirstHit(orders: seq<Resting>, t: Print, left: real)
    requires Distinct(orders) && orders != []
    ensures var h, w, id := HitOne(orders[0], t, left, map[]), Walk(orders, t, left, map[]), orders[0].id;
            Find(w.orders, id) == FirstOf(h.kept) && FilledBy(w.fills, id) == FilledBy(h.fills, id)
  {
    TailDistinct(orders);
    var h := HitOne(orders[0], t, left, map[]);
    var rest := if h.done then Walked(orders[1..], []) else Walk(orders[1..], t, h.left, h.consumed);
    if !h.done { UnreachedUntouched(orders[1..], t, h.left, h.consumed, orders[0].id); }
    FindConcat(h.kept, rest.orders, orders[0].id);
    FilledByConcat(h.fills, rest.fills, orders[0].id);
  }

  lemma LoneHit(o: Resting, t: Print, left: real)
    requires Matches(o, t.side, t.price, t.tick) && o.size > 0.0
    ensures var h, spare := HitOne(o, t, left, map[]), left - InFront(o, t.levels, map[]);
            var filled := if spare <= 0.0 then 0.0 else Min(spare, o.size);
            && FilledBy(h.fills, o.id) == filled && (h.kept == [] <==> filled == o.size)
            && (h.kept != [] ==> h.kept[0].size == o.size - filled)
  {
    var h := HitOne(o, t, left, map[]);
    if h.fills != [] { assert h.fills[1..] == []; }
  }

  /** What is left of the order stands behind what the trade has not eaten of its queue. */
  lemma LoneLeft(book: Book, o: Resting, t: Print, left: real)
    requires Matches(o, t.side, t.price, t.tick) && WfOrder(o) && t.levels == LevelsOf(book, o.side) && left >= 0.0
    ensures var h, public := HitOne(o, t, left, map[]), PublicSize(book, o.side, o.price);
            var spare := left - Ahead(o, public);
            h.kept != [] ==> && h.kept[0].side == o.side && h.kept[0].price == o.price
                             && Ahead(h.kept[0], public) == if spare <= 0.0 then -spare else 0.0
  {
    var h, public := HitOne(o, t, left, map[]), PublicSize(book, o.side, o.price);
    assert SizeAt(t.levels, o.price) == public && SizeAt(map[], o.price) == 0.0;
    assert InFront(o, t.levels, map[]) == Ahead(o, public);
    if h.kept != [] {
      assert h.kept[0].levelAtPlacement == public;
      assert h.kept[0].queueAhead == if left <= Ahead(o, public) then Ahead(o, public) - left else 0.0;
    }
  }

  // ---------- what a trade books ----------

  /** The k-th fill of a trade as it is booked. */
  ghost predicate BookedAsMaker(f: Fill, made: BookFill, price: real, ts: int) {
    && f.isMaker && f.feePaid == 0.0
    && f.id == made.id && f.side == made.side && f.size == made.size && f.price == price && f.timestamp == ts
    && f.queueAhead == made.queueAhead && f.timeInBook == made.timeInBook
  }

  /**
   A trade, on either engine: every fill it adds to the accounts is a maker fill at its price and
   time, without a fee and with the rebate of the fee category, one for each order filled.
   */
  lemma TradeBooksMakerFills(category: FeeCategory, core: Core, event: MarketEvent)
    requires event.LastTrade?
    ensures var made := Traded(core.book, event.price, event.size, event.side, event.ts).fills;
            var before, after := core.account.fills, ApplyMarket(category, core, event).account.fills;
            && |after| == |before| + |made| && after[..|before|] == before
            && forall k :: 0 <= k < |made| ==>
                 && BookedAsMaker(after[|before| + k], made[k], event.price, event.ts)
                 && after[|before| + k].rebateReceived == MakerRebate(event.price, made[k].size, category)
    ensures var after := ApplyMarket(category, core, event);
            && after.book.bids == core.book.bids && after.book.asks == core.book.asks
            && after.book.tick == core.book.tick && after.pending == core.pending
  {
    var made := Traded(core.book, event.price, event.size, event.side, event.ts).fills;
    hide Traded;
    BookedAllFills(core.account, made, event.price, event.ts, category);
  }
}
