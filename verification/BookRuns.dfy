/**
 Runs of book operations: feed updates, our own placements and cancels, trades.
 The queue-state invariant holds after every run.
 */
module BookRuns {
  import opened OrderBook
  import opened BookInvariant

  datatype BookOp =
    | Snapshot(bids: seq<(real, real)>, asks: seq<(real, real)>)
    | LevelChange(side: Aggressor, price: real, size: real)
    | Place(id: OrderId, orderSide: Side, price: real, size: real, placedAt: Millis)
    | Cancel(id: OrderId)
    | Trade(price: real, volume: Volume, aggressor: Aggressor, at: int)
    | Retick(tick: Tick)

  function ApplyOp(book: Book, op: BookOp): Book {
    match op
    case Snapshot(bids, asks) => ApplySnapshot(book, bids, asks)
    case LevelChange(side, price, size) => ApplyPriceChange(book, side, price, size)
    case Place(id, side, price, size, at) => AddOrder(book, id, side, price, size, at)
    case Cancel(id) => RemoveOrder(book, id)
    case Trade(price, volume, aggressor, at) => ApplyTrade(book, price, volume, aggressor, at)
    case Retick(tick) => book.(tick := tick)
  }

  function After(book: Book, ops: seq<BookOp>): Book {
    if ops == [] then book else ApplyOp(After(book, ops[..|ops| - 1]), ops[|ops| - 1])
  }

  lemma FromPairsIsWf(pairs: seq<(real, real)>)
    ensures WfLevels(FromPairs(pairs))
  {
  }

  lemma AddEvolves(book: Book, id: OrderId, side: Side, price: real, size: real, at: Millis)
    requires Wf(book)
    ensures Wf(AddOrder(book, id, side, price, size, at))
  {
    var added := AddOrder(book, id, side, price, size, at).orders;
    if CanAdd(book, id, size) {
      forall i | 0 <= i < |added| ensures WfOrder(added[i]) {
        if i < |book.orders| { assert added[i] == book.orders[i]; }
      }
    }
  }

  lemma TradeEvolves(book: Book, price: real, volume: Volume, aggressor: Aggressor, at: int)
    requires Wf(book)
    ensures Wf(ApplyTrade(book, price, volume, aggressor, at))
    ensures Evolved(book.orders, ApplyTrade(book, price, volume, aggressor, at).orders)
  {
    WalkEvolves(book.orders, PrintOf(book, price, aggressor, at), volume, map[]);
    EvolvedDistinct(book.orders, ApplyTrade(book, price, volume, aggressor, at).orders);
  }

  lemma RemoveEvolves(book: Book, id: OrderId)
    requires Wf(book)
    ensures Wf(RemoveOrder(book, id)) && Evolved(book.orders, RemoveOrder(book, id).orders)
    ensures !Tracks(RemoveOrder(book, id).orders, id)
  {
    WithoutEvolves(book.orders, id);
    EvolvedDistinct(book.orders, RemoveOrder(book, id).orders);
  }

  /** One operation keeps the book well formed; apart from an arrival it only moves orders on. */
  lemma OpKeepsWf(book: Book, op: BookOp)
    requires Wf(book)
    ensures Wf(ApplyOp(book, op))
    ensures op.Place? || Evolved(book.orders, ApplyOp(book, op).orders)
  {
    match op
    case Snapshot(bids, asks) =>
      FromPairsIsWf(bids);
      FromPairsIsWf(asks);
      EvolvedSame(book.orders);
    case LevelChange(side, price, size) => EvolvedSame(book.orders);
    case Place(id, side, price, size, at) => AddEvolves(book, id, side, price, size, at);
    case Cancel(id) => RemoveEvolves(book, id);
    case Trade(price, volume, aggressor, at) => TradeEvolves(book, price, volume, aggressor, at);
    case Retick(tick) => EvolvedSame(book.orders);
  }

  /** The queue-state invariant, for every order after every run of operations. */
  lemma {:induction false} QueueStateInvariant(book: Book, ops: seq<BookOp>)
    requires Wf(book)
    ensures Wf(After(book, ops))
    ensures forall i :: 0 <= i < |After(book, ops).orders| ==>
              var o := After(book, ops).orders[i];
              && o.size > 0.0 && 0.0 <= o.queueAhead <= o.levelAtPlacement
              && 0.0 <= QueuePosition(o, LevelsOf(After(book, ops), o.side))
                     <= SizeAt(LevelsOf(After(book, ops), o.side), o.price)
  {
    if ops != [] {
      QueueStateInvariant(book, ops[..|ops| - 1]);
      OpKeepsWf(After(book, ops[..|ops| - 1]), ops[|ops| - 1]);
    }
    var final := After(book, ops);
    forall i | 0 <= i < |final.orders|
      ensures var o := final.orders[i];
              && WfOrder(o)
              && 0.0 <= QueuePosition(o, LevelsOf(final, o.side)) <= SizeAt(LevelsOf(final, o.side), o.price)
    {
      QueuePositionBounded(final.orders[i], LevelsOf(final, final.orders[i].side));
    }
  }

  lemma QueuePositionBounded(o: Resting, levels: Levels)
    requires WfOrder(o) && WfLevels(levels)
    ensures 0.0 <= QueuePosition(o, levels) <= SizeAt(levels, o.price)
    ensures QueuePosition(o, levels) <= o.queueAhead
  {
  }

  /**
   As long as an order stays in the book it keeps its place and price, and its queue only shrinks -
   whatever else happens, an attempt to place it again included.
   */
  lemma {:induction false} QueueNeverGrows(book: Book, ops: seq<BookOp>, id: OrderId)
    requires Wf(book) && forall n :: 0 <= n <= |ops| ==> Tracks(After(book, ops[..n]).orders, id)
    ensures Tracks(book.orders, id) && Tracks(After(book, ops).orders, id)
    ensures Continues(Find(book.orders, id).value, Find(After(book, ops).orders, id).value)
  {
    assert ops[..0] == [] && ops[..|ops|] == ops;
    if ops != [] {
      var init, op := ops[..|ops| - 1], ops[|ops| - 1];
      assert forall n :: 0 <= n <= |init| ==> init[..n] == ops[..n];
      var before := After(book, init);
      QueueStateInvariant(book, init);
      OpKeepsWf(before, op);
      QueueNeverGrows(book, init, id);
      if op.Place? {
        FindAppended(before.orders, After(book, ops).orders, id);
      } else {
        EvolvedContinues(before.orders, After(book, ops).orders, id);
      }
    }
  }

  lemma {:induction false} FindAppended(before: seq<Resting>, after: seq<Resting>, id: OrderId)
    requires Tracks(after, id)
    requires after == before || (|after| == |before| + 1 && after[..|before|] == before && after[|before|].id != id)
    ensures Tracks(before, id) && Find(before, id) == Find(after, id)
  {
    var i :| 0 <= i < |after| && after[i].id == id;
    if after != before {
      assert before[i].id == id;
      if before[0].id != id {
        assert after[0] == before[0];
        assert after[1..][i - 1].id == id && after[1..][..|before[1..]|] == before[1..];
        FindAppended(before[1..], after[1..], id);
      }
    }
  }

  /** Our own actions and trades never touch the public book. */
  lemma OwnActionsLeavePublicBook(book: Book, op: BookOp)
    ensures op.Place? || op.Cancel? || op.Trade? || op.Retick? ==>
              ApplyOp(book, op).bids == book.bids && ApplyOp(book, op).asks == book.asks
    ensures op.Snapshot? || op.LevelChange? || op.Retick? ==> ApplyOp(book, op).orders == book.orders
  {
  }
}
