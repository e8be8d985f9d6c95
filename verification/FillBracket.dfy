/**
 How much of one order is filled by the trades at its level: a bracket that holds
 under any feed updates, exact when the public size at the level never shrinks.
 */
module FillBracket {
  import opened Prelude
  import opened OrderBook
  import opened BookInvariant
  import opened TradePriority
  import opened BookRuns

  // ---------- a trade seen by a single order ----------

  ghost predicate OnlyOneReached(orders: seq<Resting>, t: Print, id: OrderId) {
    forall i :: 0 <= i < |orders| && Matches(orders[i], t.side, t.price, t.tick) ==> orders[i].id == id
  }

  function FirstOf(kept: seq<Resting>): Option<Resting> {
    if kept == [] then None else Some(kept[0])
  }

  lemma FindConcat(a: seq<Resting>, b: seq<Resting>, id: OrderId)
    ensures Find(a + b, id) == if Tracks(a, id) then Find(a, id) else Find(b, id)
  {
    if a == [] {
      assert a + b == b;
    } else {
      assert (a + b)[1..] == a[1..] + b;
      if a[0].id != id {
        TracksConcat([a[0]], a[1..], id);
        assert [a[0]] + a[1..] == a;
      }
    }
  }

  lemma TailDistinct(orders: seq<Resting>)
    requires Distinct(orders) && orders != []
    ensures Distinct(orders[1..]) && !Tracks(orders[1..], orders[0].id)
  {
    forall i, j | 0 <= i < j < |orders[1..]| ensures orders[1..][i].id != orders[1..][j].id {
      assert orders[1..][i] == orders[i + 1] && orders[1..][j] == orders[j + 1];
    }
    assert forall i :: 0 <= i < |orders[1..]| ==> orders[1..][i] == orders[i + 1];
  }

  /** A trade that cannot reach an order leaves it exactly as it was. */
  lemma {:induction false} UnreachedUntouched(orders: seq<Resting>, t: Print, left: real, consumed: Levels, id: OrderId)
    requires Distinct(orders)
    requires Tracks(orders, id) ==> !Matches(Find(orders, id).value, t.side, t.price, t.tick)
    ensures Find(Walk(orders, t, left, consumed).orders, id) == Find(orders, id)
    ensures FilledBy(Walk(orders, t, left, consumed).fills, id) == 0.0
  {
    if orders != [] {
      TailDistinct(orders);
      var o, h := orders[0], HitOne(orders[0], t, left, consumed);
      var rest := if h.done then Walked(orders[1..], []) else Walk(orders[1..], t, h.left, h.consumed);
      TracksConcat([o], orders[1..], id);
      assert [o] + orders[1..] == orders;
      if !h.done {
        if Tracks(orders[1..], id) { assert Find(orders, id) == Find(orders[1..], id); }
        UnreachedUntouched(orders[1..], t, h.left, h.consumed, id);
      }
      FindConcat(h.kept, rest.orders, id);
      FindConcat([o], orders[1..], id);
      FilledByConcat(h.fills, rest.fills, id);
    }
  }

  /** The only order a trade reaches is treated as if it were alone in the book. */
  lemma {:induction false} LoneOrderHit(orders: seq<Resting>, t: Print, left: real, id: OrderId)
    requires Distinct(orders) && OnlyOneReached(orders, t, id) && Tracks(orders, id)
    requires Matches(Find(orders, id).value, t.side, t.price, t.tick)
    ensures var h := HitOne(Find(orders, id).value, t, left, map[]);
            var w := Walk(orders, t, left, map[]);
            Find(w.orders, id) == FirstOf(h.kept) && FilledBy(w.fills, id) == FilledBy(h.fills, id)
  {
    TailDistinct(orders);
    if orders[0].id == id {
      HeadHit(orders, t, left, id);
    } else {
      var rest := Walk(orders[1..], t, left, map[]);
      assert Tracks(orders[1..], id) && Find(orders, id) == Find(orders[1..], id) by {
        TracksConcat([orders[0]], orders[1..], id);
        assert [orders[0]] + orders[1..] == orders;
      }
      assert Walk(orders, t, left, map[]) == Walked([orders[0]] + rest.orders, [] + rest.fills);
      LoneOrderHit(orders[1..], t, left, id);
      FindConcat([orders[0]], rest.orders, id);
      assert [] + rest.fills == rest.fills;
    }
  }

  lemma HeadHit(orders: seq<Resting>, t: Print, left: real, id: OrderId)
    requires Distinct(orders) && OnlyOneReached(orders, t, id) && orders != [] && orders[0].id == id
    ensures var h := HitOne(orders[0], t, left, map[]);
            var w := Walk(orders, t, left, map[]);
            Find(w.orders, id) == FirstOf(h.kept) && FilledBy(w.fills, id) == FilledBy(h.fills, id)
  {
    TailDistinct(orders);
    var h := HitOne(orders[0], t, left, map[]);
    var rest := if h.done then Walked(orders[1..], []) else Walk(orders[1..], t, h.left, h.consumed);
    if !h.done {
      UnreachedUntouched(orders[1..], t, h.left, h.consumed, id);
    }
    assert Find(rest.orders, id) == None && FilledBy(rest.fills, id) == 0.0;
    FindConcat(h.kept, rest.orders, id);
    FilledByConcat(h.fills, rest.fills, id);
  }

  // ---------- the bracket as an invariant ----------

  /** What is known of an order of size `size`, placed behind `queue`, after `traded` units at its level. */
  ghost predicate Bracketed(live: Option<Resting>, side: Side, price: real,
                            queue: real, size: real, traded: real, filled: real) {
    && Min(size, Max(0.0, traded - queue)) <= filled <= Min(size, traded)
    && (live.None? ==> filled == size)
    && (live.Some? ==>
          var o := live.value;
          && o.side == side && o.price == price && WfOrder(o)
          && o.size == size - filled
          && o.queueAhead <= Max(0.0, queue - traded)
          && (filled > 0.0 ==> o.queueAhead == 0.0))
  }

  lemma BracketStep(o: Resting, t: Print, volume: Volume, queue: real, size: real, traded: real, filled: real)
    requires queue >= 0.0 && size > 0.0 && traded >= 0.0 && WfLevels(t.levels)
    requires Bracketed(Some(o), o.side, o.price, queue, size, traded, filled)
    requires Matches(o, t.side, t.price, t.tick)
    ensures var h := HitOne(o, t, volume, map[]);
            Bracketed(FirstOf(h.kept), o.side, o.price, queue, size, traded + volume, filled + FilledBy(h.fills, o.id))
  {
    var h := HitOne(o, t, volume, map[]);
    assert SizeAt(t.levels, o.price) >= 0.0;
    if volume > InFront(o, t.levels, map[]) {
      assert h.fills[1..] == [];
      assert FilledBy(h.fills, o.id) == h.fills[0].size;
    }
  }

  /** No shrinkage at the level: the order's snapshot is not above the current public size. */
  ghost predicate Exact(live: Option<Resting>, queue: real, size: real, traded: real, filled: real, public: real) {
    && filled == Min(size, Max(0.0, traded - queue))
    && (live.Some? ==> live.value.levelAtPlacement <= public && live.value.queueAhead == Max(0.0, queue - traded))
  }

  lemma ExactStep(o: Resting, t: Print, volume: Volume, queue: real, size: real, traded: real, filled: real)
    requires queue >= 0.0 && size > 0.0 && traded >= 0.0 && WfLevels(t.levels)
    requires Bracketed(Some(o), o.side, o.price, queue, size, traded, filled)
    requires Exact(Some(o), queue, size, traded, filled, SizeAt(t.levels, o.price))
    requires Matches(o, t.side, t.price, t.tick)
    ensures var h := HitOne(o, t, volume, map[]);
            Exact(FirstOf(h.kept), queue, size, traded + volume, filled + FilledBy(h.fills, o.id),
                  SizeAt(t.levels, o.price))
  {
    var h := HitOne(o, t, volume, map[]);
    if volume > InFront(o, t.levels, map[]) {
      assert h.fills[1..] == [];
      assert FilledBy(h.fills, o.id) == h.fills[0].size;
    }
  }

  // ---------- runs ----------

  function VolumeAt(book: Book, op: BookOp, side: Side, price: real): real {
    if op.Trade? && Reaches(side, price, SideHit(op.aggressor), op.price, book.tick) then op.volume else 0.0
  }

  function FilledIn(book: Book, op: BookOp, id: OrderId): real {
    if op.Trade? then FilledBy(Traded(book, op.price, op.volume, op.aggressor, op.at).fills, id) else 0.0
  }

  function TotalTraded(book: Book, ops: seq<BookOp>, side: Side, price: real): real {
    if ops == [] then 0.0
    else TotalTraded(book, ops[..|ops| - 1], side, price)
         + VolumeAt(After(book, ops[..|ops| - 1]), ops[|ops| - 1], side, price)
  }

  function TotalFilled(book: Book, ops: seq<BookOp>, id: OrderId): real {
    if ops == [] then 0.0
    else TotalFilled(book, ops[..|ops| - 1], id) + FilledIn(After(book, ops[..|ops| - 1]), ops[|ops| - 1], id)
  }

  /** `op` is no cancel or re-use of the order, and a trade at its level reaches no other order of ours. */
  ghost predicate Undisturbed(book: Book, op: BookOp, id: OrderId, side: Side, price: real) {
    && (op.Cancel? ==> op.id != id)
    && (op.Place? ==> op.id != id)
    && (op.Trade? && Reaches(side, price, SideHit(op.aggressor), op.price, book.tick) ==>
          OnlyOneReached(book.orders, PrintOf(book, op.price, op.aggressor, op.at), id))
  }

  ghost predicate AloneAtLevel(book: Book, ops: seq<BookOp>, id: OrderId, side: Side, price: real) {
    ops == []
    || (AloneAtLevel(book, ops[..|ops| - 1], id, side, price)
        && Undisturbed(After(book, ops[..|ops| - 1]), ops[|ops| - 1], id, side, price))
  }

  function PublicAt(book: Book, side: Side, price: real): real {
    SizeAt(LevelsOf(book, side), price)
  }

  /** The public size at the level never goes down along the run. */
  ghost predicate NeverShrinks(book: Book, ops: seq<BookOp>, side: Side, price: real) {
    ops == []
    || (NeverShrinks(book, ops[..|ops| - 1], side, price)
        && PublicAt(After(book, ops[..|ops| - 1]), side, price) <= PublicAt(After(book, ops), side, price))
  }

  /** One operation, on the book as it then is. */
  lemma OpKeepsBracket(book: Book, op: BookOp, id: OrderId, side: Side, price: real,
                       queue: real, size: real, traded: real, filled: real)
    requires Wf(book) && queue >= 0.0 && size > 0.0 && traded >= 0.0
    requires Undisturbed(book, op, id, side, price)
    requires Bracketed(Find(book.orders, id), side, price, queue, size, traded, filled)
    ensures Bracketed(Find(ApplyOp(book, op).orders, id), side, price, queue, size,
                      traded + VolumeAt(book, op, side, price), filled + FilledIn(book, op, id))
    ensures Exact(Find(book.orders, id), queue, size, traded, filled, PublicAt(book, side, price))
            && PublicAt(book, side, price) <= PublicAt(ApplyOp(book, op), side, price) ==>
              Exact(Find(ApplyOp(book, op).orders, id), queue, size, traded + VolumeAt(book, op, side, price),
                    filled + FilledIn(book, op, id), PublicAt(ApplyOp(book, op), side, price))
  {
    match op
    case Snapshot(_, _) =>
    case LevelChange(_, _, _) =>
    case Retick(_) =>
    case Place(other, s, p, z, at) =>
      if CanAdd(book, other, z) {
        FindConcat(book.orders, [NewOrder(book, other, s, p, z, at)], id);
      }
    case Cancel(other) => WithoutKeepsOthers(book.orders, other, id);
    case Trade(p, v, a, at) =>
      var t := PrintOf(book, p, a, at);
      if Reaches(side, price, t.side, p, book.tick) && Tracks(book.orders, id) {
        LoneOrderHit(book.orders, t, v, id);
        BracketStep(Find(book.orders, id).value, t, v, queue, size, traded, filled);
        if Exact(Find(book.orders, id), queue, size, traded, filled, PublicAt(book, side, price)) {
          ExactStep(Find(book.orders, id).value, t, v, queue, size, traded, filled);
        }
      } else {
        UnreachedUntouched(book.orders, t, v, map[], id);
      }
  }

  lemma TradedNotNegative(book: Book, op: BookOp, side: Side, price: real)
    ensures VolumeAt(book, op, side, price) >= 0.0
  {
  }

  lemma {:induction false} RunKeepsBracket(book: Book, ops: seq<BookOp>, id: OrderId, side: Side, price: real,
                                           queue: real, size: real)
    requires Wf(book) && queue >= 0.0 && size > 0.0
    requires AloneAtLevel(book, ops, id, side, price)
    requires Bracketed(Find(book.orders, id), side, price, queue, size, 0.0, 0.0)
    ensures TotalTraded(book, ops, side, price) >= 0.0
    ensures Bracketed(Find(After(book, ops).orders, id), side, price, queue, size,
                      TotalTraded(book, ops, side, price), TotalFilled(book, ops, id))
    ensures Exact(Find(book.orders, id), queue, size, 0.0, 0.0, PublicAt(book, side, price))
            && NeverShrinks(book, ops, side, price) ==>
              Exact(Find(After(book, ops).orders, id), queue, size, TotalTraded(book, ops, side, price),
                    TotalFilled(book, ops, id), PublicAt(After(book, ops), side, price))
  {
    hide Bracketed, Exact, Undisturbed, ApplyOp, VolumeAt, FilledIn;
    if ops != [] {
      var init := ops[..|ops| - 1];
      TradedNotNegative(After(book, init), ops[|ops| - 1], side, price);
      RunKeepsBracket(book, init, id, side, price, queue, size);
      QueueStateInvariant(book, init);
      OpKeepsBracket(After(book, init), ops[|ops| - 1], id, side, price, queue, size,
                     TotalTraded(book, init, side, price), TotalFilled(book, init, id));
    }
  }

  ghost predicate FillBracketHolds(end: Book, id: OrderId, side: Side, price: real,
                             queue: real, size: real, traded: real, filled: real, noShrinkage: bool) {
    && Min(size, Max(0.0, traded - queue)) <= filled <= Min(size, traded)
    && (noShrinkage ==> filled == Min(size, Max(0.0, traded - queue)))
    && (Tracks(end.orders, id) <==> filled < size)
    && (Tracks(end.orders, id) ==>
          var o := Find(end.orders, id).value;
          && o.size == size - filled
          && QueuePosition(o, LevelsOf(end, side)) <= Min(PublicAt(end, side, price), Max(0.0, queue - traded)))
  }

  /**
   The fill bracket. An order of size S placed behind Q public units, the only one of ours at
   its level, has after trades totalling T there been filled between min(S, T-Q) and min(S, T);
   exactly min(S, T-Q) when the public size there never shrank. Until it is gone its queue
   position is below both the public size and Q-T.
   */
  lemma FillsAreBracketed(book: Book, id: OrderId, side: Side, price: real, size: real, at: Millis, ops: seq<BookOp>)
    requires Wf(book) && CanAdd(book, id, size)
    requires AloneAtLevel(AddOrder(book, id, side, price, size, at), ops, id, side, price)
    ensures var start := AddOrder(book, id, side, price, size, at);
            FillBracketHolds(After(start, ops), id, side, price, PublicAt(book, side, price), size,
                       TotalTraded(start, ops, side, price), TotalFilled(start, ops, id),
                             NeverShrinks(start, ops, side, price))
  {
    var start := AddOrder(book, id, side, price, size, at);
    FreshOrderBracketed(book, id, side, price, size, at);
    RunKeepsBracket(start, ops, id, side, price, PublicAt(book, side, price), size);
    QueueStateInvariant(start, ops);
    BracketMeans(After(start, ops), id, side, price, PublicAt(book, side, price), size,
                 TotalTraded(start, ops, side, price), TotalFilled(start, ops, id),
                             NeverShrinks(start, ops, side, price));
  }

  lemma BracketMeans(end: Book, id: OrderId, side: Side, price: real,
                     queue: real, size: real, traded: real, filled: real, noShrinkage: bool)
    requires Wf(end) && Bracketed(Find(end.orders, id), side, price, queue, size, traded, filled)
    requires noShrinkage ==> Exact(Find(end.orders, id), queue, size, traded, filled, PublicAt(end, side, price))
    ensures FillBracketHolds(end, id, side, price, queue, size, traded, filled, noShrinkage)
  {
    if Tracks(end.orders, id) {
      QueuePositionBounded(Find(end.orders, id).value, LevelsOf(end, side));
    }
  }

  lemma FreshOrderBracketed(book: Book, id: OrderId, side: Side, price: real, size: real, at: Millis)
    requires Wf(book) && CanAdd(book, id, size)
    ensures var start := AddOrder(book, id, side, price, size, at);
            && Wf(start)
            && Bracketed(Find(start.orders, id), side, price, PublicAt(book, side, price), size, 0.0, 0.0)
            && Exact(Find(start.orders, id), PublicAt(book, side, price), size, 0.0, 0.0, PublicAt(start, side, price))
  {
    AddEvolves(book, id, side, price, size, at);
    FindConcat(book.orders, [NewOrder(book, id, side, price, size, at)], id);
  }
}
