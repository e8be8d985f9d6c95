/**
 Does it matter whether a volume prints as one trade or as two, and what does the feed's report of a
 trade do to an estimate that the trade has already moved? Both answered exactly.
 */
module TradeSplitting {
  import opened Prelude
  import opened OrderBook
  import opened BookInvariant
  import opened TradePriority
  import opened BookRuns
  import opened FillBracket

  // ---------- what one order makes of a volume ----------

  /** The order once `v` units have come to it through a queue of `queue`. */
  function Moved(o: Resting, queue: real, v: real, levels: Levels): Resting {
    o.(size := o.size - Max(0.0, v - queue), queueAhead := Max(0.0, queue - v),
       levelAtPlacement := SizeAt(levels, o.price))
  }

  lemma HitCloses(o: Resting, t: Print, v: real, consumed: Levels)
    requires WfOrder(o) && WfLevels(t.levels) && Matches(o, t.side, t.price, t.tick) && v >= 0.0
    ensures var h, queue := HitOne(o, t, v, consumed), InFront(o, t.levels, consumed);
            && (forall id :: FilledBy(h.fills, id) == if id == o.id then Min(o.size, Max(0.0, v - queue)) else 0.0)
            && h.kept == (if v - queue >= o.size then [] else [Moved(o, queue, v, t.levels)])
            && (h.done <==> v - queue <= o.size)
            && (!h.done ==> h.left == v - queue - o.size
                            && h.consumed == consumed[o.price := SizeAt(consumed, o.price) + queue + o.size])
  {
    var h := HitOne(o, t, v, consumed);
    if h.fills != [] { assert h.fills[1..] == []; }
  }

  lemma MovedPosition(o: Resting, queue: real, v: real, t: Print)
    requires WfLevels(t.levels) && queue >= 0.0 && v >= 0.0
    ensures QueuePosition(Moved(o, queue, v, t.levels), t.levels) == Max(0.0, queue - v)
    ensures InFront(Moved(o, queue, v, t.levels), t.levels, map[]) == Max(0.0, queue - v)
  {
  }

  lemma InFrontOfNothing(o: Resting, levels: Levels)
    ensures InFront(o, levels, map[]) == QueuePosition(o, levels)
  {
  }

  // ---------- a lone order ----------

  lemma {:induction false} NoneReached(orders: seq<Resting>, t: Print, left: real, consumed: Levels)
    requires forall k :: 0 <= k < |orders| ==> !Matches(orders[k], t.side, t.price, t.tick)
    ensures Walk(orders, t, left, consumed) == Walked(orders, [])
  {
    if orders != [] {
      NoneReached(orders[1..], t, left, consumed);
      assert [orders[0]] + orders[1..] == orders;
    }
  }

  ghost predicate OnlyReached(orders: seq<Resting>, t: Print, i: nat) {
    && i < |orders| && Matches(orders[i], t.side, t.price, t.tick)
    && (forall k :: 0 <= k < |orders| && k != i ==> !Matches(orders[k], t.side, t.price, t.tick))
  }

  function Spliced(orders: seq<Resting>, i: nat, kept: seq<Resting>): seq<Resting>
    requires i < |orders|
  {
    orders[..i] + kept + orders[i + 1..]
  }

  /** A trade that reaches one order replaces just that one. */
  lemma {:induction false} OneReached(orders: seq<Resting>, t: Print, left: real, i: nat)
    requires OnlyReached(orders, t, i)
    ensures var h := HitOne(orders[i], t, left, map[]);
            Walk(orders, t, left, map[]) == Walked(Spliced(orders, i, h.kept), h.fills)
  {
    var h := HitOne(orders[i], t, left, map[]);
    if i == 0 {
      if !h.done { NoneReached(orders[1..], t, h.left, h.consumed); }
      assert h.fills + [] == h.fills && orders[..0] + h.kept + orders[1..] == h.kept + orders[1..];
    } else {
      OneReached(orders[1..], t, left, i - 1);
      assert [] + h.fills == h.fills;
      assert [orders[0]] + (orders[1..][..i - 1] + h.kept + orders[1..][i..]) == orders[..i] + h.kept + orders[i + 1..];
    }
  }

  lemma SplitHit(o: Resting, t: Print, v: Volume, w: Volume, later: int)
    requires WfOrder(o) && WfLevels(t.levels) && Matches(o, t.side, t.price, t.tick)
    ensures var first, whole := HitOne(o, t, v, map[]), HitOne(o, t, v + w, map[]);
            && |first.kept| <= 1
            && (first.kept == [] ==>
                  whole.kept == [] && (forall id :: FilledBy(first.fills, id) == FilledBy(whole.fills, id)))
            && (first.kept != [] ==>
                  && Matches(first.kept[0], t.side, t.price, t.tick)
                  && var second := HitOne(first.kept[0], t.(at := later), w, map[]);
                     && second.kept == whole.kept
                     && (forall id ::
                           FilledBy(first.fills, id) + FilledBy(second.fills, id) == FilledBy(whole.fills, id)))
  {
    var queue := QueuePosition(o, t.levels);
    InFrontOfNothing(o, t.levels);
    HitCloses(o, t, v, map[]);
    HitCloses(o, t, v + w, map[]);
    if v - queue < o.size {
      MovedPosition(o, queue, v, t);
      HitCloses(Moved(o, queue, v, t.levels), t.(at := later), w, map[]);
      MovedTwice(o, queue, v, w, t.levels);
    }
    hide HitOne, FilledBy, InFront, QueuePosition, Matches;
  }

  lemma MovedTwice(o: Resting, queue: real, v: real, w: real, levels: Levels)
    requires o.size > 0.0 && queue >= 0.0 && v >= 0.0 && w >= 0.0 && v - queue < o.size
    ensures var o' := Moved(o, queue, v, levels);
            && o'.size > 0.0
            && Moved(o', Max(0.0, queue - v), w, levels) == Moved(o, queue, v + w, levels)
            && (w - Max(0.0, queue - v) >= o'.size <==> v + w - queue >= o.size)
            && Min(o.size, Max(0.0, v - queue)) + Min(o'.size, Max(0.0, w - Max(0.0, queue - v)))
               == Min(o.size, Max(0.0, v + w - queue))
  {
  }

  lemma SplicedReached(orders: seq<Resting>, t: Print, i: nat, o: Resting, kept: seq<Resting>)
    requires OnlyReached(orders, t, i) && Matches(o, t.side, t.price, t.tick)
    ensures OnlyReached(Spliced(orders, i, [o]), t, i)
    ensures Spliced(orders, i, [o])[i] == o && Spliced(Spliced(orders, i, [o]), i, kept) == Spliced(orders, i, kept)
  {
    hide Matches;
    var after := Spliced(orders, i, [o]);
    assert after[..i] == orders[..i] && after[i + 1..] == orders[i + 1..];
    assert forall k :: 0 <= k < |after| && k != i ==> after[k] == orders[k];
  }

  lemma {:induction false} SplicedAway(orders: seq<Resting>, t: Print, i: nat, left: real, consumed: Levels)
    requires OnlyReached(orders, t, i)
    ensures Walk(Spliced(orders, i, []), t, left, consumed) == Walked(Spliced(orders, i, []), [])
  {
    hide Matches;
    var after := Spliced(orders, i, []);
    assert forall k :: 0 <= k < |after| ==> after[k] == orders[if k < i then k else k + 1];
    NoneReached(after, t, left, consumed);
  }

  lemma NoneReachedLater(orders: seq<Resting>, t: Print, later: int, left: real, i: nat)
    requires OnlyReached(orders, t, i)
    ensures OnlyReached(orders, t.(at := later), i)
  {
  }

  /** For an order of ours that is alone in reach, two trades leave the book that one trade of both volumes leaves. */
  lemma LoneOrderSplitsTrades(book: Book, price: real, aggressor: Aggressor, v: Volume, w: Volume, at: int, later: int,
                              i: nat)
    requires Wf(book) && OnlyReached(book.orders, PrintOf(book, price, aggressor, at), i)
    ensures var between := ApplyTrade(book, price, v, aggressor, at);
            && ApplyTrade(between, price, w, aggressor, later) == ApplyTrade(book, price, v + w, aggressor, at)
            && (forall id :: FilledBy(Traded(book, price, v, aggressor, at).fills, id)
                             + FilledBy(Traded(between, price, w, aggressor, later).fills, id)
                             == FilledBy(Traded(book, price, v + w, aggressor, at).fills, id))
  {
    var o, t := book.orders[i], PrintOf(book, price, aggressor, at);
    var t' := t.(at := later);
    assert WfOrder(o);
    SplitHit(o, t, v, w, later);
    hide HitOne, FilledBy, Walk, Matches, Spliced;
    OneReached(book.orders, t, v, i);
    OneReached(book.orders, t, v + w, i);
    var between := ApplyTrade(book, price, v, aggressor, at);
    assert PrintOf(between, price, aggressor, later) == t';
    var first := HitOne(o, t, v, map[]);
    NoneReachedLater(book.orders, t, later, w, i);
    if first.kept == [] {
      SplicedAway(book.orders, t', i, w, map[]);
      NothingFilled();
    } else {
      assert first.kept == [first.kept[0]];
      SplicedReached(book.orders, t', i, first.kept[0], HitOne(first.kept[0], t', w, map[]).kept);
      OneReached(between.orders, t', w, i);
    }
  }

  lemma NothingFilled()
    ensures forall id :: FilledBy([], id) == 0.0
  {
  }

  // ---------- two orders ----------

  /** A trade sees only the orders it can reach, and those of them that are left are reached again. */
  lemma {:induction false} WalkOnMatching(orders: seq<Resting>, t: Print, left: real, consumed: Levels)
    ensures Walk(orders, t, left, consumed).fills == Walk(Matching(orders, t), t, left, consumed).fills
    ensures Matching(Walk(orders, t, left, consumed).orders, t) == Walk(Matching(orders, t), t, left, consumed).orders
  {
    if orders != [] {
      var o, rest := orders[0], orders[1..];
      var h := HitOne(o, t, left, consumed);
      MatchingFrom(orders, t);
      if Matches(o, t.side, t.price, t.tick) {
        assert ([o] + Matching(rest, t))[1..] == Matching(rest, t);
        if !h.done { WalkOnMatching(rest, t, h.left, h.consumed); }
        KeptStillMatches(h.kept, if h.done then rest else Walk(rest, t, h.left, h.consumed).orders, t);
      } else {
        WalkOnMatching(rest, t, left, consumed);
        var tail := Walk(rest, t, left, consumed);
        assert Walk(orders, t, left, consumed) == Walked([o] + tail.orders, [] + tail.fills);
        assert [] + tail.fills == tail.fills;
        MatchingFrom([o] + tail.orders, t);
        assert ([o] + tail.orders)[1..] == tail.orders;
      }
    }
  }

  lemma KeptStillMatches(kept: seq<Resting>, rest: seq<Resting>, t: Print)
    requires |kept| <= 1 && (kept != [] ==> Matches(kept[0], t.side, t.price, t.tick))
    ensures Matching(kept + rest, t) == kept + Matching(rest, t)
  {
    if kept == [] {
      assert kept + rest == rest && kept + Matching(rest, t) == Matching(rest, t);
    } else {
      assert (kept + rest)[1..] == rest && (kept + rest)[0] == kept[0] && kept == [kept[0]];
    }
  }

  /** Queue in front of `b` once `a`, at its price or not, is filled through its own queue. */
  function Behind(a: Resting, b: Resting, levels: Levels): real {
    var queue := QueuePosition(b, levels);
    if a.price == b.price then Max(0.0, queue - QueuePosition(a, levels) - a.size) else queue
  }

  function FirstGets(a: Resting, v: real, levels: Levels): real {
    Min(a.size, Max(0.0, v - QueuePosition(a, levels)))
  }

  function SecondGets(a: Resting, b: Resting, v: real, levels: Levels): real {
    if v <= QueuePosition(a, levels) + a.size then 0.0
    else Min(b.size, Max(0.0, v - QueuePosition(a, levels) - a.size - Behind(a, b, levels)))
  }

  function Shares(a: Resting, b: Resting, v: real, levels: Levels, id: OrderId): real {
    if id == a.id then FirstGets(a, v, levels) else if id == b.id then SecondGets(a, b, v, levels) else 0.0
  }

  /** The pair after a trade: the second order hears of it only when the first is filled with volume to spare. */
  function PairAfter(a: Resting, b: Resting, v: real, levels: Levels): seq<Resting> {
    var queue := QueuePosition(a, levels);
    if v < queue + a.size then [Moved(a, queue, v, levels), b]
    else if v == queue + a.size then [b]
    else
      var left := v - queue - a.size;
      if left >= Behind(a, b, levels) + b.size then [] else [Moved(b, Behind(a, b, levels), left, levels)]
  }

  ghost predicate Reachable(a: Resting, t: Print) {
    WfOrder(a) && Matches(a, t.side, t.price, t.tick)
  }

  lemma WalkTwo(a: Resting, b: Resting, t: Print, left: real)
    ensures var h := HitOne(a, t, left, map[]);
            var k := HitOne(b, t, h.left, h.consumed);
            Walk([a, b], t, left, map[]) == if h.done then Walked(h.kept + [b], h.fills)
                                            else Walked(h.kept + k.kept, h.fills + k.fills)
  {
    var h := HitOne(a, t, left, map[]);
    var k := HitOne(b, t, h.left, h.consumed);
    assert [a, b][1..] == [b] && [b][1..] == [];
    assert h.fills + [] == h.fills && k.kept + [] == k.kept && k.fills + [] == k.fills;
    assert Walk([b], t, h.left, h.consumed) == Walked(k.kept, k.fills);
  }

  lemma PairTraded(a: Resting, b: Resting, t: Print, v: real)
    requires Reachable(a, t) && Reachable(b, t) && a.id != b.id && WfLevels(t.levels) && v >= 0.0
    ensures var w := Walk([a, b], t, v, map[]);
            && w.orders == PairAfter(a, b, v, t.levels)
            && forall id :: FilledBy(w.fills, id) == Shares(a, b, v, t.levels, id)
  {
    InFrontOfNothing(a, t.levels);
    HitCloses(a, t, v, map[]);
    WalkTwo(a, b, t, v);
    var h := HitOne(a, t, v, map[]);
    if !h.done {
      InFrontOfSecond(a, b, t, h.consumed);
      HitCloses(b, t, h.left, h.consumed);
      var k := HitOne(b, t, h.left, h.consumed);
      forall id ensures FilledBy(h.fills + k.fills, id) == FilledBy(h.fills, id) + FilledBy(k.fills, id) {
        FilledByConcat(h.fills, k.fills, id);
      }
      hide HitOne;
      assert h.kept + k.kept == k.kept;
    } else {
      hide HitOne;
      assert v == QueuePosition(a, t.levels) + a.size ==> h.kept + [b] == [b];
    }
  }

  lemma InFrontOfSecond(a: Resting, b: Resting, t: Print, consumed: Levels)
    requires WfOrder(a) && WfOrder(b) && WfLevels(t.levels)
    requires consumed == map[a.price := 0.0 + QueuePosition(a, t.levels) + a.size]
    ensures InFront(b, t.levels, consumed) == Behind(a, b, t.levels)
  {
  }

  lemma SingleTraded(o: Resting, t: Print, v: real)
    requires Reachable(o, t) && WfLevels(t.levels) && v >= 0.0
    ensures var w := Walk([o], t, v, map[]);
            forall id :: FilledBy(w.fills, id) == if id == o.id then FirstGets(o, v, t.levels) else 0.0
  {
    InFrontOfNothing(o, t.levels);
    HitCloses(o, t, v, map[]);
    OneReached([o], t, v, 0);
  }

  /**
   When "v, then w" serves a pair as one print of both does: the two rest at different prices of
   the tick; or the first print fills the older one with volume to spare, or is empty, or what it ate
   of the queue lies in front of both; or the difference is lost because the younger one gets nothing
   or everything either way.
   */
  predicate SplitsAlike(a: Resting, b: Resting, v: real, w: real, levels: Levels) {
    var qa, qb := QueuePosition(a, levels), QueuePosition(b, levels);
    || a.price != b.price
    || v > qa + a.size || v == 0.0 || qb <= qa + a.size - v
    || w <= Max(qa + a.size - v, qb - v) || w >= b.size + qb
  }

  /** The arithmetic of it: what the second print gives each of those that the first one left. */
  function SecondPrint(a: Resting, b: Resting, v: real, w: real, levels: Levels, id: OrderId): real {
    var left := PairAfter(a, b, v, levels);
    if |left| == 2 then Shares(left[0], left[1], w, levels, id)
    else if |left| == 1 && id == left[0].id then FirstGets(left[0], w, levels)
    else 0.0
  }

  lemma SecondPrintAddsUp(a: Resting, b: Resting, v: real, w: real, t: Print)
    requires Reachable(a, t) && Reachable(b, t) && a.id != b.id && WfLevels(t.levels) && v >= 0.0 && w >= 0.0
    ensures Shares(a, b, v, t.levels, a.id) + SecondPrint(a, b, v, w, t.levels, a.id)
            == Shares(a, b, v + w, t.levels, a.id)
    ensures Shares(a, b, v, t.levels, b.id) + SecondPrint(a, b, v, w, t.levels, b.id)
            == Shares(a, b, v + w, t.levels, b.id)
            <==> SplitsAlike(a, b, v, w, t.levels)
  {
    var qa := QueuePosition(a, t.levels);
    MovedPosition(a, qa, v, t);
    if v > qa + a.size {
      MovedPosition(b, Behind(a, b, t.levels), v - qa - a.size, t);
    }
  }

  lemma {:induction false} MatchingMembers(orders: seq<Resting>, t: Print, k: nat) returns (i: nat)
    requires k < |Matching(orders, t)|
    ensures i < |orders| && Matching(orders, t)[k] == orders[i] && Matches(orders[i], t.side, t.price, t.tick)
  {
    MatchingFrom(orders, t);
    hide Matches, Matching;
    if !Matches(orders[0], t.side, t.price, t.tick) {
      var j := MatchingMembers(orders[1..], t, k);
      i := j + 1;
    } else if k == 0 {
      i := 0;
    } else {
      var j := MatchingMembers(orders[1..], t, k - 1);
      i := j + 1;
    }
  }

  lemma {:induction false} MatchingDistinct(orders: seq<Resting>, t: Print)
    requires Distinct(orders)
    ensures Distinct(Matching(orders, t))
  {
    if orders != [] {
      TailDistinct(orders);
      MatchingDistinct(orders[1..], t);
      MatchingFrom(orders, t);
      hide Matches, Matching;
      forall k | 0 <= k < |Matching(orders[1..], t)| ensures Matching(orders[1..], t)[k].id != orders[0].id {
        var j := MatchingMembers(orders[1..], t, k);
      }
    }
  }

  /** The second print, on whatever the first one left of the pair. */
  lemma SecondTraded(a: Resting, b: Resting, t: Print, later: int, v: real, w: real)
    requires Reachable(a, t) && Reachable(b, t) && a.id != b.id && WfLevels(t.levels) && v >= 0.0 && w >= 0.0
    ensures forall id :: FilledBy(Walk(PairAfter(a, b, v, t.levels), t.(at := later), w, map[]).fills, id)
                         == SecondPrint(a, b, v, w, t.levels, id)
  {
    var left, t' := PairAfter(a, b, v, t.levels), t.(at := later);
    assert forall k :: 0 <= k < |left| ==> Reachable(left[k], t');
    hide Reachable, SecondGets, FirstGets;
    if |left| == 2 {
      assert left == [left[0], left[1]];
      PairTraded(left[0], left[1], t', w);
    } else if |left| == 1 {
      assert left == [left[0]];
      SingleTraded(left[0], t', w);
    } else {
      assert left == [];
      NothingFilled();
    }
  }

  ghost predicate Pair(book: Book, t: Print, a: Resting, b: Resting) {
    && Matching(book.orders, t) == [a, b] && WfLevels(t.levels)
    && Reachable(a, t) && Reachable(b, t) && a.id != b.id
  }

  lemma PairIsReachable(book: Book, price: real, aggressor: Aggressor, at: int, a: Resting, b: Resting)
    requires Wf(book) && Matching(book.orders, PrintOf(book, price, aggressor, at)) == [a, b]
    ensures Pair(book, PrintOf(book, price, aggressor, at), a, b)
  {
    var t := PrintOf(book, price, aggressor, at);
    MatchingDistinct(book.orders, t);
    var i := MatchingMembers(book.orders, t, 0);
    var j := MatchingMembers(book.orders, t, 1);
    assert [a, b][0] == a && [a, b][1] == b && WfOrder(book.orders[i]) && WfOrder(book.orders[j]);
  }

  lemma FirstOnBook(book: Book, t: Print, v: Volume, a: Resting, b: Resting)
    requires Pair(book, t, a, b)
    ensures var w := Walk(book.orders, t, v, map[]);
            && (forall id :: FilledBy(w.fills, id) == Shares(a, b, v, t.levels, id))
            && Matching(w.orders, t) == PairAfter(a, b, v, t.levels)
  {
    hide Reachable, PairAfter;
    WalkOnMatching(book.orders, t, v, map[]);
    PairTraded(a, b, t, v);
  }

  lemma SecondOnBook(book: Book, t: Print, v: Volume, w: Volume, later: int, a: Resting, b: Resting)
    requires Pair(book, t, a, b)
    ensures forall id :: FilledBy(Walk(Walk(book.orders, t, v, map[]).orders, t.(at := later), w, map[]).fills, id)
                         == SecondPrint(a, b, v, w, t.levels, id)
  {
    hide Reachable, PairAfter, SecondPrint;
    FirstOnBook(book, t, v, a, b);
    var between := Walk(book.orders, t, v, map[]).orders;
    MatchingLater(between, t, later);
    WalkOnMatching(between, t.(at := later), w, map[]);
    SecondTraded(a, b, t, later, v, w);
  }

  lemma PairSplits(book: Book, t: Print, v: Volume, w: Volume, later: int, a: Resting, b: Resting)
    requires Pair(book, t, a, b)
    ensures var first, whole := Walk(book.orders, t, v, map[]), Walk(book.orders, t, v + w, map[]);
            var second := Walk(first.orders, t.(at := later), w, map[]);
            && FilledBy(first.fills, a.id) + FilledBy(second.fills, a.id) == FilledBy(whole.fills, a.id)
            && (SplitsAlike(a, b, v, w, t.levels)
                <==> forall id :: FilledBy(first.fills, id) + FilledBy(second.fills, id) == FilledBy(whole.fills, id))
  {
    SecondPrintAddsUp(a, b, v, w, t);
    hide *;
    FirstOnBook(book, t, v, a, b);
    FirstOnBook(book, t, v + w, a, b);
    SecondOnBook(book, t, v, w, later, a, b);
    var first, whole := Walk(book.orders, t, v, map[]), Walk(book.orders, t, v + w, map[]);
    var second := Walk(first.orders, t.(at := later), w, map[]);
    assert FilledBy(first.fills, b.id) + FilledBy(second.fills, b.id) == FilledBy(whole.fills, b.id)
           <==> SplitsAlike(a, b, v, w, t.levels);
    forall id | id != a.id && id != b.id
      ensures FilledBy(first.fills, id) + FilledBy(second.fills, id) == FilledBy(whole.fills, id)
    {
      OthersGetNothing(a, b, v, w, t.levels, id);
      OthersGetNothing(a, b, v + w, w, t.levels, id);
    }
  }

  /**
   Two of our orders in reach of a trade, in the order of arrival. Printed as v and then w they are
   filled as by one print of v + w exactly under `SplitsAlike`; the older one always is.
   */
  lemma PairSplitsIff(book: Book, price: real, aggressor: Aggressor, v: Volume, w: Volume, at: int, later: int,
                      a: Resting, b: Resting)
    requires Wf(book) && Matching(book.orders, PrintOf(book, price, aggressor, at)) == [a, b]
    ensures var between := ApplyTrade(book, price, v, aggressor, at);
            var first, second := Traded(book, price, v, aggressor, at).fills,
                Traded(between, price, w, aggressor, later).fills;
            var whole := Traded(book, price, v + w, aggressor, at).fills;
            && FilledBy(first, a.id) + FilledBy(second, a.id) == FilledBy(whole, a.id)
            && (SplitsAlike(a, b, v, w, LevelsOf(book, SideHit(aggressor)))
                <==> forall id :: FilledBy(first, id) + FilledBy(second, id) == FilledBy(whole, id))
  {
    hide Walk, SplitsAlike, Matching, FilledBy;
    PairIsReachable(book, price, aggressor, at, a, b);
    PairSplits(book, PrintOf(book, price, aggressor, at), v, w, later, a, b);
  }

  lemma OthersGetNothing(a: Resting, b: Resting, v: real, w: real, levels: Levels, id: OrderId)
    requires id != a.id && id != b.id
    ensures Shares(a, b, v, levels, id) == SecondPrint(a, b, v, w, levels, id) == 0.0
  {
  }

  lemma MatchingLater(orders: seq<Resting>, t: Print, later: int)
    ensures Matching(orders, t.(at := later)) == Matching(orders, t)
  {
  }

  /**
   The case that breaks it: both orders fresh behind the same queue. A print that the queue absorbs
   stops at the older order, the younger one never learns of it and is short-changed by the next print.
   */
  lemma SplittingMattersForTwo(a: Resting, b: Resting, w: real, levels: Levels)
    requires WfOrder(a) && WfOrder(b) && WfLevels(levels) && a.price == b.price
    requires a.queueAhead == a.levelAtPlacement == b.queueAhead == b.levelAtPlacement == SizeAt(levels, a.price)
    requires a.size < w <= a.queueAhead
    ensures !SplitsAlike(a, b, a.queueAhead, w, levels)
  {
  }

  // ---------- a trade that the feed reports once more ----------

  /** The price change with which the feed takes a trade of `v` off the public level. */
  function Report(book: Book, side: Side, price: real, v: real): BookOp {
    LevelChange(if side.Bid? then Buy else Sell, price, PublicAt(book, side, price) - v)
  }

  /**
   A trade followed by the feed reporting the level reduced by that same trade moves a lone order
   forward twice: from p to p - 2v. The position is the true p - v exactly when the trade was empty
   or reached the end of the queue.
   */
  lemma ReportedTradeCountsTwice(book: Book, id: OrderId, price: real, v: Volume, aggressor: Aggressor, at: int,
                                 o: Resting, end: Book)
    requires Wf(book) && Find(book.orders, id) == Some(o)
    requires var t := PrintOf(book, price, aggressor, at);
             OnlyOneReached(book.orders, t, id) && Matches(o, t.side, t.price, t.tick)
    requires end == After(book, [Trade(price, v, aggressor, at), Report(book, o.side, o.price, v)])
    ensures Tracks(end.orders, id) <==> v - QueuePosition(o, LevelsOf(book, o.side)) < o.size
    ensures Tracks(end.orders, id) ==>
              var p := QueuePosition(o, LevelsOf(book, o.side));
              var position := QueuePosition(Find(end.orders, id).value, LevelsOf(end, o.side));
              && position == Max(0.0, p - 2.0 * v)
              && (position == Max(0.0, p - v) <==> v == 0.0 || v >= p)
  {
    var levels := LevelsOf(book, o.side);
    LoneOrderLeft(book, id, price, v, aggressor, at);
    TradeThenReport(book, price, v, aggressor, at, o.side, o.price);
    assert PublicAt(book, o.side, o.price) == SizeAt(levels, o.price);
    hide QueuePosition, Moved, WithLevel, Report, After, OnlyOneReached, Matches, Tracks, PublicAt, Walk, Wf, LevelsOf;
    if v - QueuePosition(o, levels) < o.size { MovedThenReported(o, levels, QueuePosition(o, levels), v); }
  }

  /** What a trade leaves of the only order in its reach. */
  lemma LoneOrderLeft(book: Book, id: OrderId, price: real, v: Volume, aggressor: Aggressor, at: int)
    requires Wf(book) && Tracks(book.orders, id)
    requires var t := PrintOf(book, price, aggressor, at);
             OnlyOneReached(book.orders, t, id) && Matches(Find(book.orders, id).value, t.side, t.price, t.tick)
    ensures var o, t := Find(book.orders, id).value, PrintOf(book, price, aggressor, at);
            var p := QueuePosition(o, t.levels);
            && WfOrder(o) && WfLevels(t.levels) && t.levels == LevelsOf(book, o.side)
            && Find(Walk(book.orders, t, v, map[]).orders, id)
               == if v - p < o.size then Some(Moved(o, p, v, t.levels)) else None
  {
    var t, o := PrintOf(book, price, aggressor, at), Find(book.orders, id).value;
    assert WfOrder(o) && t.levels == LevelsOf(book, o.side) && WfLevels(t.levels);
    hide HitOne, Walk, QueuePosition, Moved, OnlyOneReached, Matches, WfOrder, Tracks, LevelsOf, PrintOf, WfLevels;
    LoneOrderHit(book.orders, t, v, id);
    LeftAfterHit(o, t, v);
  }

  lemma TradeThenReport(book: Book, price: real, v: Volume, aggressor: Aggressor, at: int, side: Side, level: real)
    ensures var end := After(book, [Trade(price, v, aggressor, at), Report(book, side, level, v)]);
            && end.orders == Walk(book.orders, PrintOf(book, price, aggressor, at), v, map[]).orders
            && LevelsOf(end, side) == WithLevel(LevelsOf(book, side), level, PublicAt(book, side, level) - v)
  {
    TwoOps(book, Trade(price, v, aggressor, at), Report(book, side, level, v));
  }

  lemma TwoOps(book: Book, first: BookOp, second: BookOp)
    ensures After(book, [first, second]) == ApplyOp(ApplyOp(book, first), second)
  {
    var ops := [first, second];
    assert ops[..|ops| - 1] == [first] && [first][..0] == [];
    assert After(book, [first]) == ApplyOp(book, first);
  }

  lemma LeftAfterHit(o: Resting, t: Print, v: Volume)
    requires WfOrder(o) && WfLevels(t.levels) && Matches(o, t.side, t.price, t.tick)
    ensures var p, left := QueuePosition(o, t.levels), FirstOf(HitOne(o, t, v, map[]).kept);
            left == if v - p < o.size then Some(Moved(o, p, v, t.levels)) else None
  {
    InFrontOfNothing(o, t.levels);
    HitCloses(o, t, v, map[]);
  }

  lemma MovedThenReported(o: Resting, levels: Levels, p: real, v: real)
    requires WfOrder(o) && WfLevels(levels) && p == QueuePosition(o, levels) && 0.0 <= v
    ensures var position := QueuePosition(Moved(o, p, v, levels),
                                          WithLevel(levels, o.price, SizeAt(levels, o.price) - v));
            position == Max(0.0, p - 2.0 * v) && (position == Max(0.0, p - v) <==> v == 0.0 || v >= p)
  {
  }
}
