/**
 Price-time priority inside one trade, and a description of the fills that does
 not mention the walk: each fill in terms of the trade, the order and the fills before it.
 */
module TradePriority {
  import opened Prelude
  import opened OrderBook
  import opened BookInvariant

  /** The orders a trade can reach, oldest first. */
  function Matching(orders: seq<Resting>, t: Print): seq<Resting> {
    if orders == [] then []
    else (if Matches(orders[0], t.side, t.price, t.tick) then [orders[0]] else []) + Matching(orders[1..], t)
  }

  /** Volume a list of fills accounts for: what was filled and the queue eaten to get there. */
  function Spent(fills: seq<BookFill>): real {
    if fills == [] then 0.0 else fills[0].size + fills[0].queueAhead + Spent(fills[1..])
  }

  /** The part of `Spent` that went to orders at exactly this price. */
  function SpentAt(orders: seq<Resting>, fills: seq<BookFill>, price: real): real
    requires |fills| <= |orders|
  {
    if fills == [] then 0.0
    else (if orders[0].price == price then fills[0].size + fills[0].queueAhead else 0.0)
         + SpentAt(orders[1..], fills[1..], price)
  }

  /** Queue in front of the k-th reachable order once the k fills before it have happened. */
  ghost function QueueBefore(m: seq<Resting>, fills: seq<BookFill>, k: nat, levels: Levels, consumed: Levels): real
    requires k <= |fills| && k < |m|
  {
    Max(0.0, m[k].queueAhead
             - (Shrinkage(m[k], levels) + SizeAt(consumed, m[k].price) + SpentAt(m[..k], fills[..k], m[k].price)))
  }

  /** The k-th fill is what order k can take of the volume that is left for it. */
  ghost predicate FillIsDue(m: seq<Resting>, fills: seq<BookFill>, k: nat, t: Print, volume: real, consumed: Levels)
    requires k < |fills| <= |m|
  {
    var available := volume - Spent(fills[..k]) - QueueBefore(m, fills, k, t.levels, consumed);
    && available > 0.0
    && fills[k] == BookFill(m[k].id, m[k].side, Min(available, m[k].size),
                            QueueBefore(m, fills, k, t.levels, consumed), t.at - m[k].placedAt)
  }

  /** Nothing is due to the first order that was not filled. */
  ghost predicate NothingMoreDue(m: seq<Resting>, fills: seq<BookFill>, t: Print, volume: real, consumed: Levels)
    requires |fills| <= |m|
  {
    |fills| < |m| ==>
      volume - Spent(fills) <= QueueBefore(m, fills, |fills|, t.levels, consumed)
  }

  ghost predicate FillsAreDue(m: seq<Resting>, fills: seq<BookFill>, t: Print, volume: real, consumed: Levels) {
    && |fills| <= |m|
    && (forall k :: 0 <= k < |fills| ==> FillIsDue(m, fills, k, t, volume, consumed))
    && NothingMoreDue(m, fills, t, volume, consumed)
    && Spent(fills) <= volume
  }

  /** One reachable order put in front of an already described walk. */
  lemma DueStep(o: Resting, f: BookFill, m: seq<Resting>, fills: seq<BookFill>, t: Print,
                volume: real, consumed: Levels, eaten: Levels)
    requires f.size > 0.0 && f.queueAhead == InFront(o, t.levels, consumed)
    requires f == BookFill(o.id, o.side, Min(volume - f.queueAhead, o.size), f.queueAhead, t.at - o.placedAt)
    requires eaten == consumed[o.price := SizeAt(consumed, o.price) + f.queueAhead + f.size]
    requires FillsAreDue(m, fills, t, volume - f.queueAhead - f.size, eaten)
    requires volume - f.queueAhead > 0.0
    ensures FillsAreDue([o] + m, [f] + fills, t, volume, consumed)
  {
    var m', fills' := [o] + m, [f] + fills;
    assert m'[1..] == m && fills'[1..] == fills;
    assert m'[..0] == [] && fills'[..0] == [];
    forall k | 1 <= k <= |fills| + 1
      ensures Spent(fills'[..k]) == f.size + f.queueAhead + Spent(fills[..k - 1])
      ensures k < |m'| ==>
                QueueBefore(m', fills', k, t.levels, consumed) == QueueBefore(m, fills, k - 1, t.levels, eaten)
    {
      assert fills'[..k][1..] == fills[..k - 1];
      if k < |m'| {
        assert m'[..k][1..] == m[..k - 1];
      }
    }
    forall k | 0 <= k < |fills'| ensures FillIsDue(m', fills', k, t, volume, consumed) {
      if k > 0 {
        assert FillIsDue(m, fills, k - 1, t, volume - f.queueAhead - f.size, eaten);
      }
    }
    assert fills'[..|fills'|] == fills' && fills[..|fills|] == fills;
  }

  lemma MatchingFrom(orders: seq<Resting>, t: Print)
    requires orders != []
    ensures Matches(orders[0], t.side, t.price, t.tick) ==>
              Matching(orders, t) == [orders[0]] + Matching(orders[1..], t)
    ensures !Matches(orders[0], t.side, t.price, t.tick) ==> Matching(orders, t) == Matching(orders[1..], t)
  {
  }

  lemma {:induction false} WalkFillsAreDue(orders: seq<Resting>, t: Print, left: real, consumed: Levels)
    requires WfOrders(orders) && left >= 0.0
    ensures FillsAreDue(Matching(orders, t), Walk(orders, t, left, consumed).fills, t, left, consumed)
  {
    if orders != [] {
      MatchingFrom(orders, t);
      assert WfOrder(orders[0]);
      if !Matches(orders[0], t.side, t.price, t.tick) {
        WalkFillsAreDue(orders[1..], t, left, consumed);
        assert Walk(orders, t, left, consumed).fills == Walk(orders[1..], t, left, consumed).fills;
      } else if left <= InFront(orders[0], t.levels, consumed) {
      } else {
        var h := HitOne(orders[0], t, left, consumed);
        if h.done {
          HitFirstDue(orders[0], Matching(orders[1..], t), [], t, left, consumed);
        } else {
          WalkFillsAreDue(orders[1..], t, h.left, h.consumed);
          HitFirstDue(orders[0], Matching(orders[1..], t), Walk(orders[1..], t, h.left, h.consumed).fills, t, left,
                      consumed);
        }
      }
    }
  }

  lemma HitFirstDue(o: Resting, m: seq<Resting>, fills: seq<BookFill>, t: Print, left: real, consumed: Levels)
    requires WfOrder(o) && Matches(o, t.side, t.price, t.tick)
    requires left > InFront(o, t.levels, consumed)
    requires var h := HitOne(o, t, left, consumed); FillsAreDue(m, fills, t, h.left, h.consumed)
    ensures FillsAreDue([o] + m, HitOne(o, t, left, consumed).fills + fills, t, left, consumed)
  {
    var h := HitOne(o, t, left, consumed);
    DueStep(o, h.fills[0], m, fills, t, left, consumed, h.consumed);
    assert h.fills + fills == [h.fills[0]] + fills;
  }

  /**
   One trade, in order of arrival: the filled orders are the first reachable ones, all but the
   last of them filled completely, and fills plus queue never use more than the trade.
   */
  lemma FilledInPriorityOrder(book: Book, price: real, volume: Volume, aggressor: Aggressor, at: int)
    requires Wf(book)
    ensures var m := Matching(book.orders, PrintOf(book, price, aggressor, at));
            var fills := Traded(book, price, volume, aggressor, at).fills;
            && FillsAreDue(m, fills, PrintOf(book, price, aggressor, at), volume, map[])
            && |fills| <= |m| && Spent(fills) <= volume
            && (forall k :: 0 <= k < |fills| ==> fills[k].id == m[k].id && 0.0 < fills[k].size <= m[k].size)
            && (forall k :: 0 <= k < |fills| - 1 ==> fills[k].size == m[k].size)
  {
    var t := PrintOf(book, price, aggressor, at);
    var m := Matching(book.orders, t);
    var fills := Traded(book, price, volume, aggressor, at).fills;
    WalkFillsAreDue(book.orders, t, volume, map[]);
    MatchingIsWf(book.orders, t);
    forall k | 0 <= k < |fills|
      ensures fills[k].id == m[k].id && 0.0 < fills[k].size <= m[k].size
      ensures k < |fills| - 1 ==> fills[k].size == m[k].size
    {
      assert FillIsDue(m, fills, k, t, volume, map[]) && WfOrder(m[k]);
      if k < |fills| - 1 {
        assert FillIsDue(m, fills, k + 1, t, volume, map[]);
        SpentNext(fills, k);
      }
    }
  }

  lemma MatchingIsWf(orders: seq<Resting>, t: Print)
    requires WfOrders(orders)
    ensures WfOrders(Matching(orders, t))
  {
    if orders != [] {
      assert WfOrder(orders[0]);
      assert WfOrders(orders[1..]);
    }
  }

  lemma {:induction false} SpentNext(fills: seq<BookFill>, k: nat)
    requires k < |fills|
    ensures Spent(fills[..k + 1]) == Spent(fills[..k]) + fills[k].size + fills[k].queueAhead
  {
    if k > 0 {
      SpentNext(fills[1..], k - 1);
      assert fills[1..][..k] == fills[..k + 1][1..];
      assert fills[1..][..k - 1] == fills[..k][1..];
    } else {
      assert fills[..1][1..] == [];
    }
  }

  // ---------- two orders at one level ----------

  predicate Filled(fills: seq<BookFill>, id: OrderId) {
    exists k :: 0 <= k < |fills| && fills[k].id == id
  }

  lemma TracksConcat(a: seq<Resting>, b: seq<Resting>, id: OrderId)
    ensures Tracks(a + b, id) <==> Tracks(a, id) || Tracks(b, id)
  {
    if Tracks(b, id) {
      var i :| 0 <= i < |b| && b[i].id == id;
      assert (a + b)[|a| + i].id == id;
    }
    if Tracks(a, id) {
      var i :| 0 <= i < |a| && a[i].id == id;
      assert (a + b)[i].id == id;
    }
  }

  lemma {:induction false} WalkFillsOnlyTracked(orders: seq<Resting>, t: Print, left: real, consumed: Levels,
                                                id: OrderId)
    requires Filled(Walk(orders, t, left, consumed).fills, id)
    ensures Tracks(orders, id)
  {
    if orders != [] {
      var h := HitOne(orders[0], t, left, consumed);
      var fills := Walk(orders, t, left, consumed).fills;
      var k :| 0 <= k < |fills| && fills[k].id == id;
      if k >= |h.fills| {
        var rest := Walk(orders[1..], t, h.left, h.consumed).fills;
        assert fills[k] == rest[k - |h.fills|];
        WalkFillsOnlyTracked(orders[1..], t, h.left, h.consumed, id);
      }
    }
  }

  /** A fill for an order other than the first comes from the walk over the rest. */
  lemma FilledLater(orders: seq<Resting>, t: Print, left: real, consumed: Levels, id: OrderId)
    requires orders != [] && orders[0].id != id && Filled(Walk(orders, t, left, consumed).fills, id)
    ensures var h := HitOne(orders[0], t, left, consumed);
            !h.done && Filled(Walk(orders[1..], t, h.left, h.consumed).fills, id)
  {
    var h, w := HitOne(orders[0], t, left, consumed), Walk(orders, t, left, consumed);
    var k :| 0 <= k < |w.fills| && w.fills[k].id == id;
    assert |h.fills| <= 1 && (h.fills != [] ==> h.fills[0].id == orders[0].id);
    hide HitOne;
    assert k >= |h.fills|;
    if !h.done { assert Walk(orders[1..], t, h.left, h.consumed).fills[k - |h.fills|].id == id; }
  }

  lemma FirstGone(orders: seq<Resting>, t: Print, left: real, consumed: Levels)
    requires WfOrders(orders) && Distinct(orders) && WfLevels(t.levels) && NonNegative(consumed) && left >= 0.0
             && orders != []
    requires !HitOne(orders[0], t, left, consumed).done && Matches(orders[0], t.side, t.price, t.tick)
    ensures !Tracks(Walk(orders, t, left, consumed).orders, orders[0].id)
  {
    var h, w := HitOne(orders[0], t, left, consumed), Walk(orders, t, left, consumed);
    var rest := Walk(orders[1..], t, h.left, h.consumed);
    assert WfOrder(orders[0]) && WfOrders(orders[1..]);
    HitIsWf(orders[0], t, left, consumed);
    assert h.kept == [] && w.orders == rest.orders;
    WalkEvolves(orders[1..], t, h.left, h.consumed);
    if Tracks(w.orders, orders[0].id) {
      var l :| 0 <= l < |w.orders| && w.orders[l].id == orders[0].id;
      EvolvedTracks(orders[1..], rest.orders, l);
    }
  }

  /** When a later order at the level is filled, the earlier one is filled completely and gone. */
  lemma {:induction false} WalkPriority(orders: seq<Resting>, t: Print, left: real, consumed: Levels, i: nat, j: nat)
    requires WfOrders(orders) && Distinct(orders) && WfLevels(t.levels) && NonNegative(consumed) && left >= 0.0
    requires i < j < |orders|
    requires Matches(orders[i], t.side, t.price, t.tick)
    requires Filled(Walk(orders, t, left, consumed).fills, orders[j].id)
    ensures !Tracks(Walk(orders, t, left, consumed).orders, orders[i].id)
  {
    hide HitOne, Matches, Filled, Tracks;
    var h := HitOne(orders[0], t, left, consumed);
    FilledLater(orders, t, left, consumed, orders[j].id);
    if i == 0 {
      FirstGone(orders, t, left, consumed);
    } else {
      var tail := orders[1..];
      assert WfOrder(orders[0]) && WfOrders(tail);
      HitIsWf(orders[0], t, left, consumed);
      assert Distinct(tail) by {
        assert forall a, b :: 0 <= a < b < |tail| ==> tail[a] == orders[a + 1] && tail[b] == orders[b + 1];
      }
      WalkPriority(tail, t, h.left, h.consumed, i - 1, j - 1);
      TracksConcat(h.kept, Walk(tail, t, h.left, h.consumed).orders, orders[i].id);
      KeptIsFirst(orders[0], t, left, consumed, orders[i].id);
    }
  }

  lemma KeptIsFirst(o: Resting, t: Print, left: real, consumed: Levels, id: OrderId)
    requires o.id != id
    ensures !Tracks(HitOne(o, t, left, consumed).kept, id)
  {
  }

  /** An order never trades while an older one on the same side and price keeps any size. */
  lemma OlderOrderFirst(book: Book, price: real, volume: Volume, aggressor: Aggressor, at: int, i: nat, j: nat)
    requires Wf(book) && i < j < |book.orders|
    requires book.orders[i].side == book.orders[j].side && book.orders[i].price == book.orders[j].price
    requires Filled(Traded(book, price, volume, aggressor, at).fills, book.orders[j].id)
    ensures !Tracks(ApplyTrade(book, price, volume, aggressor, at).orders, book.orders[i].id)
    ensures FilledBy(Traded(book, price, volume, aggressor, at).fills, book.orders[i].id) == book.orders[i].size
  {
    var t := PrintOf(book, price, aggressor, at);
    var o := book.orders[i];
    WalkFillsMatch(book.orders, t, volume, map[], j);
    WalkPriority(book.orders, t, volume, map[], i, j);
    WalkEvolves(book.orders, t, volume, map[]);
    WalkConserves(book.orders, t, volume, map[], o.id);
    EvolvedDistinct(book.orders, Walk(book.orders, t, volume, map[]).orders);
    RestingSizeIsFound(book.orders, o.id);
    RestingSizeIsFound(Walk(book.orders, t, volume, map[]).orders, o.id);
  }

  lemma {:induction false} WalkFillsMatch(orders: seq<Resting>, t: Print, left: real, consumed: Levels, j: nat)
    requires Distinct(orders) && j < |orders|
    requires Filled(Walk(orders, t, left, consumed).fills, orders[j].id)
    ensures Matches(orders[j], t.side, t.price, t.tick)
  {
    var h := HitOne(orders[0], t, left, consumed);
    var w := Walk(orders, t, left, consumed);
    var k :| 0 <= k < |w.fills| && w.fills[k].id == orders[j].id;
    if k < |h.fills| {
      assert j == 0;
    } else {
      var rest := Walk(orders[1..], t, h.left, h.consumed);
      assert rest.fills[k - |h.fills|].id == orders[j].id;
      WalkFillsOnlyTracked(orders[1..], t, h.left, h.consumed, orders[j].id);
      assert forall a, b :: 0 <= a < b < |orders[1..]| ==>
               orders[1..][a] == orders[a + 1] && orders[1..][b] == orders[b + 1];
      if j > 0 {
        WalkFillsMatch(orders[1..], t, h.left, h.consumed, j - 1);
      }
    }
  }
}
