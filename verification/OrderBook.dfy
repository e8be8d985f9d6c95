/**
 The two-sided price-level book together with the queue estimates of our own
 resting orders, as a value and the functions that update it.
 Class L2OrderBook (L2OrderBook.dfy) is the mutable form of the same thing.
 */
module OrderBook {
  import opened Prelude

  type OrderId = nat
  type Millis = nat
  type Levels = map<real, real>
  type Tick = t: real | t > 0.0 witness 1.0
  type Volume = v: real | v >= 0.0 witness 0.0

  datatype Side = Bid | Ask
  datatype Aggressor = Buy | Sell

  /** One of our orders: the entries of the three per-order dictionaries. */
  datatype Resting = Resting(id: OrderId, side: Side, price: real, size: real,
                             queueAhead: real, levelAtPlacement: real, placedAt: Millis)

  datatype Book = Book(tick: Tick, bids: Levels, asks: Levels, orders: seq<Resting>)

  /** What `process_trade` reports for one of our orders. */
  datatype BookFill = BookFill(id: OrderId, side: Side, size: real, queueAhead: real, timeInBook: int)

  // ---------- the public book ----------

  function SizeAt(levels: Levels, price: real): real {
    if price in levels then levels[price] else 0.0
  }

  function LevelsOf(book: Book, side: Side): Levels {
    if side.Bid? then book.bids else book.asks
  }

  /** The dictionary built from (price, size) pairs, zero sizes dropped; later pairs win. */
  function FromPairs(pairs: seq<(real, real)>): Levels {
    if pairs == [] then map[]
    else
      var last := pairs[|pairs| - 1];
      var levels := FromPairs(pairs[..|pairs| - 1]);
      if last.1 > 0.0 then levels[last.0 := last.1] else levels
  }

  /** A price is in the dictionary iff some pair gives it a positive size; the last such pair says which. */
  lemma {:induction false} LastPositivePairWins(pairs: seq<(real, real)>, price: real)
    ensures price in FromPairs(pairs) <==> exists i :: 0 <= i < |pairs| && pairs[i].0 == price && pairs[i].1 > 0.0
    ensures forall i :: 0 <= i < |pairs| && pairs[i].0 == price && pairs[i].1 > 0.0
                        && (forall j :: i < j < |pairs| && pairs[j].0 == price ==> pairs[j].1 <= 0.0) ==>
              SizeAt(FromPairs(pairs), price) == pairs[i].1
  {
    if pairs != [] {
      var init, last := pairs[..|pairs| - 1], pairs[|pairs| - 1];
      LastPositivePairWins(init, price);
      assert forall i :: 0 <= i < |init| ==> init[i] == pairs[i];
      if price in FromPairs(init) {
        var i :| 0 <= i < |init| && init[i].0 == price && init[i].1 > 0.0;
        assert pairs[i].0 == price && pairs[i].1 > 0.0;
      }
    }
  }

  function WithLevel(levels: Levels, price: real, size: real): Levels {
    if size <= 0.0 then levels - {price} else levels[price := size]
  }

  function ApplySnapshot(book: Book, bids: seq<(real, real)>, asks: seq<(real, real)>): Book {
    book.(bids := FromPairs(bids), asks := FromPairs(asks))
  }

  function ApplyPriceChange(book: Book, side: Aggressor, price: real, size: real): Book {
    if side.Buy? then book.(bids := WithLevel(book.bids, price, size))
    else book.(asks := WithLevel(book.asks, price, size))
  }

  lemma MaximumExists(keys: set<real>)
    requires keys != {}
    ensures exists m :: m in keys && forall k :: k in keys ==> k <= m
  {
    var x := Pick(keys);
    if keys != {x} {
      MaximumExists(keys - {x});
      var m :| m in keys - {x} && forall k :: k in keys - {x} ==> k <= m;
      assert forall k :: k in keys ==> k in keys - {x} || k == x;
      assert Max(m, x) in keys;
    }
  }

  lemma MinimumExists(keys: set<real>)
    requires keys != {}
    ensures exists m :: m in keys && forall k :: k in keys ==> m <= k
  {
    var x := Pick(keys);
    if keys != {x} {
      MinimumExists(keys - {x});
      var m :| m in keys - {x} && forall k :: k in keys - {x} ==> m <= k;
      assert forall k :: k in keys ==> k in keys - {x} || k == x;
      assert Min(m, x) in keys;
    }
  }

  function Highest(keys: set<real>): (m: real)
    requires keys != {}
    ensures m in keys && forall k :: k in keys ==> k <= m
  {
    MaximumExists(keys);
    var m :| m in keys && forall k :: k in keys ==> k <= m;
    m
  }

  function Lowest(keys: set<real>): (m: real)
    requires keys != {}
    ensures m in keys && forall k :: k in keys ==> m <= k
  {
    MinimumExists(keys);
    var m :| m in keys && forall k :: k in keys ==> m <= k;
    m
  }

  function TopBid(levels: Levels): Option<(real, real)> {
    if levels.Keys == {} then None
    else var px := Highest(levels.Keys); Some((px, levels[px]))
  }

  function TopAsk(levels: Levels): Option<(real, real)> {
    if levels.Keys == {} then None
    else var px := Lowest(levels.Keys); Some((px, levels[px]))
  }

  function BestBid(book: Book): Option<(real, real)> {
    TopBid(book.bids)
  }

  function BestAsk(book: Book): Option<(real, real)> {
    TopAsk(book.asks)
  }

  function Mid(book: Book): Option<real> {
    var bid, ask := BestBid(book), BestAsk(book);
    if bid.None? || ask.None? then None else Some((bid.value.0 + ask.value.0) / 2.0)
  }

  // ---------- our orders ----------

  predicate Tracks(orders: seq<Resting>, id: OrderId) {
    exists i :: 0 <= i < |orders| && orders[i].id == id
  }

  predicate CanAdd(book: Book, id: OrderId, size: real) {
    size > 0.0 && !Tracks(book.orders, id)
  }

  function NewOrder(book: Book, id: OrderId, side: Side, price: real, size: real, at: Millis): Resting {
    var ahead := SizeAt(LevelsOf(book, side), price);
    Resting(id, side, price, size, ahead, ahead, at)
  }

  /** `add_our_order`; where the original raises, the book is left as it was. */
  function AddOrder(book: Book, id: OrderId, side: Side, price: real, size: real, at: Millis): Book {
    if CanAdd(book, id, size) then book.(orders := book.orders + [NewOrder(book, id, side, price, size, at)])
    else book
  }

  function Without(orders: seq<Resting>, id: OrderId): seq<Resting> {
    if orders == [] then []
    else if orders[0].id == id then Without(orders[1..], id)
    else [orders[0]] + Without(orders[1..], id)
  }

  function RemoveOrder(book: Book, id: OrderId): Book {
    book.(orders := Without(book.orders, id))
  }

  /** Volume that left the front of the queue since the order's snapshot of its level. */
  function Shrinkage(o: Resting, levels: Levels): real {
    Max(0.0, o.levelAtPlacement - SizeAt(levels, o.price))
  }

  function QueuePosition(o: Resting, levels: Levels): real {
    Max(0.0, o.queueAhead - Shrinkage(o, levels))
  }

  // ---------- trades ----------

  predicate SameTickLevel(a: real, b: real, tick: Tick) {
    Round(a / tick) == Round(b / tick)
  }

  function SideHit(aggressor: Aggressor): Side {
    if aggressor.Buy? then Ask else Bid
  }

  /** Whether a trade on `side` at `price` can reach an order of ours resting at (orderSide, orderPrice). */
  predicate Reaches(orderSide: Side, orderPrice: real, side: Side, price: real, tick: Tick) {
    orderSide == side
    && (if side.Bid? then orderPrice >= price else orderPrice <= price)
    && SameTickLevel(orderPrice, price, tick)
  }

  /** The orders that `process_trade` does not skip. */
  predicate Matches(o: Resting, side: Side, price: real, tick: Tick) {
    Reaches(o.side, o.price, side, price, tick)
  }

  /** A trade as seen by the walk over our orders. */
  datatype Print = Print(side: Side, price: real, tick: Tick, levels: Levels, at: int)

  datatype Walked = Walked(orders: seq<Resting>, fills: seq<BookFill>)

  /** Queue volume in front of `o`, counting what this trade already ate at its price. */
  function InFront(o: Resting, levels: Levels, consumed: Levels): real {
    Max(0.0, o.queueAhead - (Shrinkage(o, levels) + SizeAt(consumed, o.price)))
  }

  function Absorbed(o: Resting, levels: Levels, consumed: Levels, left: real): Resting {
    o.(queueAhead := Max(0.0, o.queueAhead - (Shrinkage(o, levels) + SizeAt(consumed, o.price)) - left),
       levelAtPlacement := SizeAt(levels, o.price))
  }

  function Reduced(o: Resting, levels: Levels, fill: real): Resting {
    o.(size := o.size - fill, queueAhead := 0.0, levelAtPlacement := SizeAt(levels, o.price))
  }

  /** What one order makes of `left` units: what stays of it, its fill, and what goes on to the next. */
  datatype Hit = Hit(kept: seq<Resting>, fills: seq<BookFill>, left: real, consumed: Levels, done: bool)

  function HitOne(o: Resting, t: Print, left: real, consumed: Levels): Hit {
    if !Matches(o, t.side, t.price, t.tick) then Hit([o], [], left, consumed, false)
    else
      var queue := InFront(o, t.levels, consumed);
      if left <= queue then Hit([Absorbed(o, t.levels, consumed, left)], [], 0.0,
                               consumed[o.price := SizeAt(consumed, o.price) + left], true)
      else
        var fill := Min(left - queue, o.size);
        Hit(if o.size - fill <= 0.0 then [] else [Reduced(o, t.levels, fill)],
            [BookFill(o.id, o.side, fill, queue, t.at - o.placedAt)],
            left - queue - fill,
            consumed[o.price := SizeAt(consumed, o.price) + queue + fill],
            left - queue - fill <= 0.0)
  }

  /** The walk of `left` units of traded volume over our orders, oldest first. */
  function Walk(orders: seq<Resting>, t: Print, left: real, consumed: Levels): Walked {
    if orders == [] then Walked([], [])
    else
      var h := HitOne(orders[0], t, left, consumed);
      var rest := if h.done then Walked(orders[1..], []) else Walk(orders[1..], t, h.left, h.consumed);
      Walked(h.kept + rest.orders, h.fills + rest.fills)
  }

  function PrintOf(book: Book, price: real, aggressor: Aggressor, at: int): Print {
    var side := SideHit(aggressor);
    Print(side, price, book.tick, LevelsOf(book, side), at)
  }

  function Traded(book: Book, price: real, volume: Volume, aggressor: Aggressor, at: int): Walked {
    Walk(book.orders, PrintOf(book, price, aggressor, at), volume, map[])
  }

  function ApplyTrade(book: Book, price: real, volume: Volume, aggressor: Aggressor, at: int): Book {
    book.(orders := Traded(book, price, volume, aggressor, at).orders)
  }
}
