/**
 The mutable order book: the public levels, our orders in insertion order, and
 the two side dictionaries keyed by order id. Each method is tied to the
 function on book values that it implements.
 */
module L2OrderBookClass {
  import opened Prelude
  import opened OrderBook
  import opened BookInvariant

  datatype OrderInfo = OrderInfo(side: Side, price: real, size: real, queueAhead: real)
  datatype AddOutcome = Added | SizeNotPositive | DuplicateId

  /** One entry of `our_orders` joined with its two side entries. */
  function Joined(id: OrderId, info: OrderInfo, level: real, placed: Millis): Resting {
    Resting(id, info.side, info.price, info.size, info.queueAhead, level, placed)
  }

  ghost predicate Keyed(ids: seq<OrderId>, infos: map<OrderId, OrderInfo>,
                        levels: map<OrderId, real>, placed: map<OrderId, Millis>) {
    && NoRepeats(ids)
    && (forall id :: id in infos <==> id in ids)
    && infos.Keys == levels.Keys == placed.Keys
  }

  function Join(ids: seq<OrderId>, infos: map<OrderId, OrderInfo>,
                levels: map<OrderId, real>, placed: map<OrderId, Millis>): seq<Resting>
    requires forall id :: id in ids ==> id in infos && id in levels && id in placed
  {
    seq(|ids|, i requires 0 <= i < |ids| => Joined(ids[i], infos[ids[i]], levels[ids[i]], placed[ids[i]]))
  }

  function Dropped(ids: seq<OrderId>, id: OrderId): seq<OrderId> {
    if ids == [] then [] else (if ids[0] == id then [] else [ids[0]]) + Dropped(ids[1..], id)
  }

  lemma DroppedIds(ids: seq<OrderId>, id: OrderId)
    ensures forall x :: x in Dropped(ids, id) <==> x in ids && x != id
    ensures NoRepeats(ids) ==> NoRepeats(Dropped(ids, id))
  {
    if ids != [] {
      DroppedIds(ids[1..], id);
      if NoRepeats(ids) {
        assert forall i, j :: 0 <= i < j < |ids[1..]| ==> ids[1..][i] == ids[i + 1] && ids[1..][j] == ids[j + 1];
        assert ids[0] !in ids[1..];
      }
    }
  }

  lemma DroppedKeyed(ids: seq<OrderId>, infos: map<OrderId, OrderInfo>,
                     levels: map<OrderId, real>, placed: map<OrderId, Millis>, id: OrderId)
    requires Keyed(ids, infos, levels, placed)
    ensures Keyed(Dropped(ids, id), infos - {id}, levels - {id}, placed - {id})
    ensures Join(Dropped(ids, id), infos - {id}, levels - {id}, placed - {id})
            == Without(Join(ids, infos, levels, placed), id)
  {
    DroppedIds(ids, id);
    JoinWithout(ids, infos, levels, placed, id);
  }

  lemma {:induction false} JoinWithout(ids: seq<OrderId>, infos: map<OrderId, OrderInfo>,
                                       levels: map<OrderId, real>, placed: map<OrderId, Millis>, id: OrderId)
    requires forall x :: x in ids ==> x in infos && x in levels && x in placed
    ensures forall x :: x in Dropped(ids, id) ==> x in infos && x in levels && x in placed
    ensures Join(Dropped(ids, id), infos, levels, placed) == Without(Join(ids, infos, levels, placed), id)
  {
    DroppedIds(ids, id);
    if ids != [] {
      DroppedIds(ids[1..], id);
      JoinWithout(ids[1..], infos, levels, placed, id);
      var all := Join(ids, infos, levels, placed);
      assert all[1..] == Join(ids[1..], infos, levels, placed);
      if ids[0] != id {
        assert Dropped(ids, id) == [ids[0]] + Dropped(ids[1..], id);
        assert Join(Dropped(ids, id), infos, levels, placed)
            == [all[0]] + Join(Dropped(ids[1..], id), infos, levels, placed);
      } else {
        assert Dropped(ids, id) == Dropped(ids[1..], id);
      }
    }
  }

  /** Removing the one order at a known place. */
  lemma WithoutAt(done: seq<Resting>, o: Resting, rest: seq<Resting>)
    requires Distinct(done + [o] + rest)
    ensures Without(done + [o] + rest, o.id) == done + rest
  {
    var all := done + [o] + rest;
    assert all[|done|] == o;
    forall i | 0 <= i < |done| ensures done[i].id != o.id { assert all[i] == done[i]; }
    forall i | 0 <= i < |rest| ensures rest[i].id != o.id { assert all[|done| + 1 + i] == rest[i]; }
    WithoutNothing(done, o.id);
    WithoutNothing(rest, o.id);
    WithoutConcat(done + [o], rest, o.id);
    WithoutConcat(done, [o], o.id);
  }

  lemma WithoutNothing(orders: seq<Resting>, id: OrderId)
    requires forall i :: 0 <= i < |orders| ==> orders[i].id != id
    ensures Without(orders, id) == orders
  {
    if orders != [] {
      assert forall i :: 0 <= i < |orders[1..]| ==> orders[1..][i] == orders[i + 1];
      WithoutNothing(orders[1..], id);
    }
  }

  lemma WithoutConcat(a: seq<Resting>, b: seq<Resting>, id: OrderId)
    ensures Without(a + b, id) == Without(a, id) + Without(b, id)
  {
    if a == [] {
      assert a + b == b;
    } else {
      assert (a + b)[1..] == a[1..] + b;
      WithoutConcat(a[1..], b, id);
    }
  }

  /** What the loop body of `process_trade` does to one order, by the guard it takes. */
  lemma HitSplits(o: Resting, t: Print, left: real, consumed: Levels)
    ensures var h, eaten, now := HitOne(o, t, left, consumed), SizeAt(consumed, o.price), SizeAt(t.levels, o.price);
            var front := Max(0.0, o.levelAtPlacement - now) + eaten;
            var queue := Max(0.0, o.queueAhead - front);
            var fill := Min(left - queue, o.size);
            && (!Matches(o, t.side, t.price, t.tick) ==> h == Hit([o], [], left, consumed, false))
            && (Matches(o, t.side, t.price, t.tick) && left <= queue ==>
                  h == Hit([o.(queueAhead := Max(0.0, o.queueAhead - front - left), levelAtPlacement := now)], [], 0.0,
                           consumed[o.price := eaten + left], true))
            && (Matches(o, t.side, t.price, t.tick) && left > queue ==>
                  h == Hit(if o.size - fill <= 0.0 then []
                           else [o.(size := o.size - fill, queueAhead := 0.0, levelAtPlacement := now)],
                           [BookFill(o.id, o.side, fill, queue, t.at - o.placedAt)],
                           left - queue - fill, consumed[o.price := eaten + queue + fill], left - queue - fill <= 0.0))
  {
  }

  class L2OrderBook {
    var tick: Tick
    var bids: Levels
    var asks: Levels
    var orderIds: seq<OrderId>  // the insertion order of ourOrders
    var ourOrders: map<OrderId, OrderInfo>
    var levelSizeAtPlacement: map<OrderId, real>
    var placedAtMs: map<OrderId, Millis>

    ghost predicate Valid()
      reads this
    {
      Keyed(orderIds, ourOrders, levelSizeAtPlacement, placedAtMs)
    }

    function View(): Book
      reads this
      requires Valid()
    {
      Book(tick, bids, asks, Join(orderIds, ourOrders, levelSizeAtPlacement, placedAtMs))
    }

    lemma TracksKeys(id: OrderId)
      requires Valid()
      ensures Tracks(View().orders, id) <==> id in ourOrders
      ensures Distinct(View().orders)
    {
      if id in ourOrders {
        var i :| 0 <= i < |orderIds| && orderIds[i] == id;
        assert View().orders[i].id == id;
      }
    }

    constructor (tick: Tick)
      ensures Valid() && View() == Book(tick, map[], map[], [])
    {
      this.tick := tick;
      bids, asks := map[], map[];
      orderIds, ourOrders, levelSizeAtPlacement, placedAtMs := [], map[], map[], map[];
    }

    method ApplyBookSnapshot(bids: seq<(real, real)>, asks: seq<(real, real)>)
      requires Valid()
      modifies this`bids, this`asks
      ensures Valid() && View() == ApplySnapshot(old(View()), bids, asks)
    {
      this.bids := FromPairs(bids);
      this.asks := FromPairs(asks);
    }

    method ApplyLevelChange(side: Aggressor, price: real, newSize: real)
      requires Valid()
      modifies this`bids, this`asks
      ensures Valid() && View() == ApplyPriceChange(old(View()), side, price, newSize)
    {
      var book := if side.Buy? then bids else asks;
      if newSize <= 0.0 {
        book := book - {price};
      } else {
        book := book[price := newSize];
      }
      if side.Buy? {
        bids := book;
      } else {
        asks := book;
      }
    }

    method SetTick(tick: Tick)
      requires Valid()
      modifies this`tick
      ensures Valid() && View() == old(View()).(tick := tick)
    {
      this.tick := tick;
    }

    method AddOurOrder(id: OrderId, side: Side, price: real, size: real, placedAt: Millis) returns (outcome: AddOutcome)
      requires Valid()
      modifies this`orderIds, this`ourOrders, this`levelSizeAtPlacement, this`placedAtMs
      ensures Valid() && View() == AddOrder(old(View()), id, side, price, size, placedAt)
      ensures outcome.Added? <==> CanAdd(old(View()), id, size)
      ensures outcome.SizeNotPositive? <==> size <= 0.0
    {
      TracksKeys(id);
      if size <= 0.0 {
        return SizeNotPositive;
      }
      if id in ourOrders {
        return DuplicateId;
      }
      var ahead := SizeAt(if side.Bid? then bids else asks, price);
      ghost var before := View();
      ourOrders := ourOrders[id := OrderInfo(side, price, size, ahead)];
      orderIds := orderIds + [id];
      levelSizeAtPlacement := levelSizeAtPlacement[id := ahead];
      placedAtMs := placedAtMs[id := placedAt];
      assert View().orders == before.orders + [NewOrder(before, id, side, price, size, placedAt)];
      return Added;
    }

    method RemoveOurOrder(id: OrderId)
      requires Valid()
      modifies this`orderIds, this`ourOrders, this`levelSizeAtPlacement, this`placedAtMs
      ensures Valid() && View() == RemoveOrder(old(View()), id)
    {
      DroppedKeyed(orderIds, ourOrders, levelSizeAtPlacement, placedAtMs, id);
      orderIds := Dropped(orderIds, id);
      ourOrders := ourOrders - {id};
      levelSizeAtPlacement := levelSizeAtPlacement - {id};
      placedAtMs := placedAtMs - {id};
    }

    ghost function Orders(): seq<Resting>
      reads this
      requires Valid()
    {
      Join(orderIds, ourOrders, levelSizeAtPlacement, placedAtMs)
    }

    /** `id` is the dictionary entry between `before` and `after`, and reads `o`. */
    ghost predicate Between(before: seq<Resting>, o: Resting, after: seq<Resting>)
      reads this
    {
      && Valid() && Orders() == before + [o] + after
      && o.id in ourOrders && o == Joined(o.id, ourOrders[o.id], levelSizeAtPlacement[o.id], placedAtMs[o.id])
    }

    /** Overwrite one order in place: its position in the dictionary stays. */
    method Overwrite(id: OrderId, info: OrderInfo, level: real, ghost before: seq<Resting>, ghost o: Resting,
                     ghost after: seq<Resting>)
      requires Between(before, o, after) && id == o.id
      modifies this`ourOrders, this`levelSizeAtPlacement
      ensures Valid()
      ensures Orders() == before + [Joined(id, info, level, o.placedAt)] + after
    {
      ghost var all := Orders();
      assert all[|before|] == o && orderIds[|before|] == id;
      ourOrders := ourOrders[id := info];
      levelSizeAtPlacement := levelSizeAtPlacement[id := level];
      assert Orders() == all[|before| := Joined(id, info, level, o.placedAt)];
    }

    method PopFilled(id: OrderId, ghost before: seq<Resting>, ghost o: Resting, ghost after: seq<Resting>)
      requires Between(before, o, after) && id == o.id
      modifies this`orderIds, this`ourOrders, this`levelSizeAtPlacement, this`placedAtMs
      ensures Valid()
      ensures Orders() == before + after
    {
      TracksKeys(id);
      WithoutAt(before, o, after);
      RemoveOurOrder(id);
    }

    /** The volume in front of an order, given what the current trade already consumed at its price. */
    method QueueRemaining(id: OrderId, info: OrderInfo, inLoopConsumed: real)
      returns (currentPublic: real, consumedFromFront: real)
      requires Valid() && id in ourOrders && ourOrders[id] == info
      ensures currentPublic == SizeAt(if info.side.Bid? then bids else asks, info.price)
      ensures consumedFromFront == Max(0.0, levelSizeAtPlacement[id] - currentPublic) + inLoopConsumed
    {
      var book := if info.side.Bid? then bids else asks;
      currentPublic := SizeAt(book, info.price);
      var initialPublic := levelSizeAtPlacement[id];
      var realConsumed := Max(0.0, initialPublic - currentPublic);
      consumedFromFront := realConsumed + inLoopConsumed;
    }

    /** The branch of `process_trade` in which the queue in front absorbs what is left of the trade. */
    method AbsorbTrade(id: OrderId, info: OrderInfo, newAhead: real, currentPublic: real,
                       ghost before: seq<Resting>, ghost o: Resting, ghost after: seq<Resting>)
      requires Between(before, o, after) && id == o.id && ourOrders[id] == info
      modifies this`ourOrders, this`levelSizeAtPlacement
      ensures Valid()
      ensures Orders() == before + [o.(queueAhead := newAhead, levelAtPlacement := currentPublic)] + after
    {
      Overwrite(id, info.(queueAhead := newAhead), currentPublic, before, o, after);
    }

    /** The branch of `process_trade` in which an order is (partly) filled. */
    method FillOrder(id: OrderId, info: OrderInfo, fillSize: real, currentPublic: real,
                     ghost before: seq<Resting>, ghost o: Resting, ghost kept: seq<Resting>, ghost after: seq<Resting>)
      requires Between(before, o, after) && id == o.id && ourOrders[id] == info
      requires kept == if o.size - fillSize <= 0.0 then []
                       else [o.(size := o.size - fillSize, queueAhead := 0.0, levelAtPlacement := currentPublic)]
      modifies this`orderIds, this`ourOrders, this`levelSizeAtPlacement, this`placedAtMs
      ensures Valid()
      ensures Orders() == before + kept + after
    {
      var newSize := info.size - fillSize;
      if newSize <= 0.0 {
        PopFilled(id, before, o, after);
        assert before + kept == before;
      } else {
        Overwrite(id, info.(size := newSize, queueAhead := 0.0), currentPublic, before, o, after);
      }
    }

    /** The loop body of `process_trade`. */
    method HitOrder(id: OrderId, info: OrderInfo, left: real, consumedAtPrice: Levels, price: real, ourSide: Side,
                    at: int,
                    ghost t: Print, ghost before: seq<Resting>, ghost o: Resting, ghost hit: Hit,
                    ghost after: seq<Resting>)
      returns (remaining: real, consumed: Levels, fills: seq<BookFill>, stop: bool)
      requires Between(before, o, after) && id == o.id && ourOrders[id] == info
      requires t == Print(ourSide, price, tick, if ourSide.Bid? then bids else asks, at)
      requires hit == HitOne(o, t, left, consumedAtPrice)
      modifies this`orderIds, this`ourOrders, this`levelSizeAtPlacement, this`placedAtMs
      ensures Valid()
      ensures Orders() == before + hit.kept + after
      ensures hit == Hit(hit.kept, fills, remaining, consumed, stop)
    {
      assert o == Joined(id, info, levelSizeAtPlacement[id], placedAtMs[id]);
      ghost var levels := if info.side.Bid? then bids else asks;
      HitSplits(o, t, left, consumedAtPrice);
      assert Matches(o, t.side, t.price, t.tick) <==> Reaches(info.side, info.price, ourSide, price, tick);
      assert Matches(o, t.side, t.price, t.tick) ==> t.levels == levels;
      hide Reaches, Matches, HitOne, Max, Min, Join, Keyed, SizeAt, Joined;
      if !Reaches(info.side, info.price, ourSide, price, tick) {
        return left, consumedAtPrice, [], false;
      }
      var inLoopConsumed := SizeAt(consumedAtPrice, info.price);
      var currentPublic, consumedFromFront := QueueRemaining(id, info, inLoopConsumed);
      var queueRemaining := Max(0.0, info.queueAhead - consumedFromFront);
      if left <= queueRemaining {
        AbsorbTrade(id, info, Max(0.0, info.queueAhead - consumedFromFront - left), currentPublic, before, o, after);
        return 0.0, consumedAtPrice[info.price := inLoopConsumed + left], [], true;
      }
      remaining := left - queueRemaining;
      var fillSize := Min(remaining, info.size);
      remaining := remaining - fillSize;
      fills := [BookFill(id, info.side, fillSize, queueRemaining, at - placedAtMs[id])];
      consumed := consumedAtPrice[info.price := inLoopConsumed + queueRemaining + fillSize];
      stop := remaining <= 0.0;
      FillOrder(id, info, fillSize, currentPublic, before, o, hit.kept, after);
    }

    method ProcessTrade(price: real, volume: Volume, aggressor: Aggressor, at: int) returns (fills: seq<BookFill>)
      requires Valid()
      modifies this`orderIds, this`ourOrders, this`levelSizeAtPlacement, this`placedAtMs
      ensures Valid()
      ensures View() == ApplyTrade(old(View()), price, volume, aggressor, at)
      ensures fills == Traded(old(View()), price, volume, aggressor, at).fills
    {
      fills := WalkOrders(price, volume, SideHit(aggressor), at, PrintOf(View(), price, aggressor, at));
    }

    /** The loop of `process_trade`, over a copy of the orders taken at the start. */
    method WalkOrders(price: real, volume: Volume, ourSide: Side, at: int, ghost t: Print)
      returns (fills: seq<BookFill>)
      requires Valid() && t == Print(ourSide, price, tick, if ourSide.Bid? then bids else asks, at)
      modifies this`orderIds, this`ourOrders, this`levelSizeAtPlacement, this`placedAtMs
      ensures Valid() && Walked(Orders(), fills) == Walk(old(Orders()), t, volume, map[])
    {
      ghost var all, done, rest := Orders(), [], Walk(Orders(), t, volume, map[]);
      ghost var whole := rest;
      var snapshot, infos := orderIds, ourOrders;
      assert |snapshot| == |all| && forall k :: 0 <= k < |all| ==> Agrees(snapshot, infos, all, k);
      var remaining: real, consumedAtPrice: Levels, stop := volume, map[], false;
      fills := [];
      WalkStart(all, whole);
      var i: nat := 0;
      while i < |snapshot| && !stop
        invariant Valid() && i <= |all| && Orders() == done + all[i..]
        invariant rest == if stop then Walked(all[i..], []) else Walk(all[i..], t, remaining, consumedAtPrice)
        invariant whole == Prefixed(done, fills, rest)
      {
        var id := snapshot[i];
        var info := infos[id];
        ghost var hit := HitOne(all[i], t, remaining, consumedAtPrice);
        assert Agrees(snapshot, infos, all, i);
        rest := WalkNext(all, i, t, remaining, consumedAtPrice, done, fills, whole);
        SplitAt(done, all, i);
        var more;
        remaining, consumedAtPrice, more, stop :=
          HitOrder(id, info, remaining, consumedAtPrice, price, ourSide, at, t, done, all[i], hit, all[i + 1..]);
        fills := fills + more;
        done := done + hit.kept;
        i := i + 1;
      }
      WalkEnd(all, i, stop, t, remaining, consumedAtPrice, done, fills);
    }

    static lemma WalkStart(all: seq<Resting>, whole: Walked)
      ensures Prefixed([], [], whole) == whole && all[0..] == all && [] + all[0..] == all
    {
    }

    static lemma WalkEnd(all: seq<Resting>, i: nat, stop: bool, t: Print, left: real, consumed: Levels,
                         done: seq<Resting>, fills: seq<BookFill>)
      requires i <= |all| && (stop || i == |all|)
      ensures Prefixed(done, fills, if stop then Walked(all[i..], []) else Walk(all[i..], t, left, consumed))
              == Walked(done + all[i..], fills)
    {
      assert fills + [] == fills;
    }

    lemma SplitAt(done: seq<Resting>, all: seq<Resting>, i: nat)
      requires Valid() && i < |all| && Orders() == done + all[i..]
      ensures Between(done, all[i], all[i + 1..])
    {
      assert all[i..] == [all[i]] + all[i + 1..];
      assert done + [all[i]] + all[i + 1..] == done + ([all[i]] + all[i + 1..]);
      assert Orders()[|done|] == all[i] && orderIds[|done|] == all[i].id;
    }

    static lemma WalkNext(all: seq<Resting>, i: nat, t: Print, left: real, consumed: Levels,
                          done: seq<Resting>, fills: seq<BookFill>, whole: Walked) returns (rest: Walked)
      requires i < |all| && whole == Prefixed(done, fills, Walk(all[i..], t, left, consumed))
      ensures var hit := HitOne(all[i], t, left, consumed);
              && rest == (if hit.done then Walked(all[i + 1..], []) else Walk(all[i + 1..], t, hit.left, hit.consumed))
              && whole == Prefixed(done + hit.kept, fills + hit.fills, rest)
    {
      var hit := HitOne(all[i], t, left, consumed);
      assert all[i..][0] == all[i] && all[i..][1..] == all[i + 1..];
      rest := if hit.done then Walked(all[i + 1..], []) else Walk(all[i + 1..], t, hit.left, hit.consumed);
      PrefixedStep(done, fills, hit, rest);
    }

    static ghost predicate Agrees(snapshot: seq<OrderId>, infos: map<OrderId, OrderInfo>, all: seq<Resting>, k: int)
      requires 0 <= k < |all| == |snapshot|
    {
      && all[k].id == snapshot[k] && snapshot[k] in infos
      && infos[snapshot[k]] == OrderInfo(all[k].side, all[k].price, all[k].size, all[k].queueAhead)
    }

    static ghost function Prefixed(done: seq<Resting>, fills: seq<BookFill>, rest: Walked): Walked {
      Walked(done + rest.orders, fills + rest.fills)
    }

    static lemma PrefixedStep(done: seq<Resting>, fills: seq<BookFill>, hit: Hit, rest: Walked)
      ensures Prefixed(done, fills, Walked(hit.kept + rest.orders, hit.fills + rest.fills))
              == Prefixed(done + hit.kept, fills + hit.fills, rest)
    {
    }

    function BestBidLevel(): (top: Option<(real, real)>)
      reads this
      requires Valid()
      ensures top == BestBid(View())
    {
      TopBid(bids)
    }

    function BestAskLevel(): (top: Option<(real, real)>)
      reads this
      requires Valid()
      ensures top == BestAsk(View())
    {
      TopAsk(asks)
    }

    function MidPrice(): (mid: Option<real>)
      reads this
      requires Valid()
      ensures mid == Mid(View())
    {
      var bid, ask := BestBidLevel(), BestAskLevel();
      if bid.None? || ask.None? then None else Some((bid.value.0 + ask.value.0) / 2.0)
    }

    /** `queue_position`: None when the order is not tracked. */
    method QueuePositionOf(id: OrderId) returns (position: Option<real>)
      requires Valid()
      ensures position == if Tracks(View().orders, id)
                          then Some(QueuePosition(Find(View().orders, id).value,
                                                  LevelsOf(View(), Find(View().orders, id).value.side)))
                          else None
    {
      TracksKeys(id);
      if id !in ourOrders {
        return None;
      }
      var info := ourOrders[id];
      var book := if info.side.Bid? then bids else asks;
      var consumed := Max(0.0, levelSizeAtPlacement[id] - SizeAt(book, info.price));
      ghost var k :| 0 <= k < |orderIds| && orderIds[k] == id;
      hide Keyed, Tracks, SizeAt;
      assert View().orders[k] == Joined(id, info, levelSizeAtPlacement[id], placedAtMs[id]);
      return Some(Max(0.0, info.queueAhead - consumed));
    }
  }
}
