/**
 What every book operation keeps: well-formed queue estimates, the arrival
 order of our orders, and the size of every order.
 */
module BookInvariant {
  import opened Prelude
  import opened OrderBook

  // ---------- well-formed books ----------

  ghost predicate WfOrder(o: Resting) {
    o.size > 0.0 && 0.0 <= o.queueAhead <= o.levelAtPlacement
  }

  ghost predicate WfOrders(orders: seq<Resting>) {
    forall i :: 0 <= i < |orders| ==> WfOrder(orders[i])
  }

  ghost predicate Distinct(orders: seq<Resting>) {
    forall i, j :: 0 <= i < j < |orders| ==> orders[i].id != orders[j].id
  }

  ghost predicate NoRepeats(ids: seq<OrderId>) {
    forall a, b :: 0 <= a < b < |ids| ==> ids[a] != ids[b]
  }

  ghost predicate WfLevels(levels: Levels) {
    forall p :: p in levels ==> levels[p] > 0.0
  }

  ghost predicate Wf(book: Book) {
    WfLevels(book.bids) && WfLevels(book.asks) && WfOrders(book.orders) && Distinct(book.orders)
  }

  // ---------- how a list of orders may change without an arrival ----------

  /** The same order later: it can only have shrunk and moved forward in the queue. */
  ghost predicate Continues(a: Resting, b: Resting) {
    a.id == b.id && a.side == b.side && a.price == b.price && a.placedAt == b.placedAt
    && b.size <= a.size && b.queueAhead <= a.queueAhead
  }

  /** `after` is `before` with some orders gone and the rest continued, in the same order. */
  ghost predicate Evolved(before: seq<Resting>, after: seq<Resting>) {
    after == []
    || (before != []
        && ((Continues(before[0], after[0]) && Evolved(before[1..], after[1..]))
            || Evolved(before[1..], after)))
  }

  function Find(orders: seq<Resting>, id: OrderId): (r: Option<Resting>)
    ensures r.Some? <==> Tracks(orders, id)
    ensures r.Some? ==> r.value in orders && r.value.id == id
  {
    if orders == [] then None
    else if orders[0].id == id then Some(orders[0])
    else
      assert Tracks(orders, id) ==> Tracks(orders[1..], id) by {
        if Tracks(orders, id) {
          var i :| 0 <= i < |orders| && orders[i].id == id;
          assert orders[1..][i - 1].id == id;
        }
      }
      var r := Find(orders[1..], id);
      assert r.Some? ==> Tracks(orders, id) by {
        if r.Some? {
          var i :| 0 <= i < |orders[1..]| && orders[1..][i].id == id;
          assert orders[i + 1].id == id;
        }
      }
      r
  }

  lemma {:induction false} EvolvedSame(orders: seq<Resting>)
    ensures Evolved(orders, orders)
  {
    if orders != [] { EvolvedSame(orders[1..]); }
  }

  lemma {:induction false} EvolvedTracks(before: seq<Resting>, after: seq<Resting>, k: nat)
    requires Evolved(before, after) && k < |after|
    ensures exists i :: 0 <= i < |before| && Continues(before[i], after[k])
  {
    if Continues(before[0], after[0]) && Evolved(before[1..], after[1..]) {
      if k > 0 {
        EvolvedTracks(before[1..], after[1..], k - 1);
        var i :| 0 <= i < |before[1..]| && Continues(before[1..][i], after[1..][k - 1]);
        assert Continues(before[i + 1], after[k]);
      }
    } else {
      EvolvedTracks(before[1..], after, k);
      var i :| 0 <= i < |before[1..]| && Continues(before[1..][i], after[k]);
      assert Continues(before[i + 1], after[k]);
    }
  }

  /** Relative order survives: `a` before `b` afterwards means `a` before `b` already. */
  lemma {:induction false} EvolvedKeepsOrder(before: seq<Resting>, after: seq<Resting>, j: nat, k: nat)
    requires Evolved(before, after) && j < k < |after|
    ensures exists i, l :: 0 <= i < l < |before| && before[i].id == after[j].id && before[l].id == after[k].id
  {
    if Continues(before[0], after[0]) && Evolved(before[1..], after[1..]) {
      if j > 0 {
        EvolvedKeepsOrder(before[1..], after[1..], j - 1, k - 1);
        var i, l :| 0 <= i < l < |before[1..]| && before[1..][i].id == after[1..][j - 1].id
                    && before[1..][l].id == after[1..][k - 1].id;
        assert before[i + 1].id == after[j].id && before[l + 1].id == after[k].id;
      } else {
        EvolvedTracks(before[1..], after[1..], k - 1);
        var l :| 0 <= l < |before[1..]| && Continues(before[1..][l], after[1..][k - 1]);
        assert before[0].id == after[j].id && before[l + 1].id == after[k].id;
      }
    } else {
      EvolvedKeepsOrder(before[1..], after, j, k);
      var i, l :| 0 <= i < l < |before[1..]| && before[1..][i].id == after[j].id && before[1..][l].id == after[k].id;
      assert before[i + 1].id == after[j].id && before[l + 1].id == after[k].id;
    }
  }

  lemma EvolvedDistinct(before: seq<Resting>, after: seq<Resting>)
    requires Evolved(before, after) && Distinct(before)
    ensures Distinct(after)
  {
    forall j, k | 0 <= j < k < |after| ensures after[j].id != after[k].id {
      EvolvedKeepsOrder(before, after, j, k);
    }
  }

  /** An order that is still there is the same order as before, further on. */
  lemma EvolvedContinues(before: seq<Resting>, after: seq<Resting>, id: OrderId)
    requires Evolved(before, after) && Distinct(before) && Tracks(after, id)
    ensures Tracks(before, id) && Continues(Find(before, id).value, Find(after, id).value)
  {
    var b := Find(after, id).value;
    var k :| 0 <= k < |after| && after[k] == b;
    EvolvedTracks(before, after, k);
    var i :| 0 <= i < |before| && Continues(before[i], after[k]);
    assert before[i].id == id;
  }

  // ---------- cancellation ----------

  lemma {:induction false} WithoutEvolves(orders: seq<Resting>, id: OrderId)
    ensures Evolved(orders, Without(orders, id))
    ensures !Tracks(Without(orders, id), id)
    ensures WfOrders(orders) ==> WfOrders(Without(orders, id))
  {
    if orders != [] {
      WithoutEvolves(orders[1..], id);
      assert WfOrders(orders) ==> WfOrders(orders[1..]);
    }
  }

  lemma {:induction false} WithoutKeepsOthers(orders: seq<Resting>, id: OrderId, other: OrderId)
    requires id != other
    ensures Find(Without(orders, id), other) == Find(orders, other)
  {
    if orders != [] {
      WithoutKeepsOthers(orders[1..], id, other);
      if orders[0].id != id {
        assert ([orders[0]] + Without(orders[1..], id))[1..] == Without(orders[1..], id);
      }
    }
  }

  // ---------- trades ----------

  ghost predicate NonNegative(levels: Levels) {
    forall p :: p in levels ==> levels[p] >= 0.0
  }

  lemma HitIsWf(o: Resting, t: Print, left: real, consumed: Levels)
    requires WfOrder(o) && WfLevels(t.levels) && NonNegative(consumed) && left >= 0.0
    ensures var h := HitOne(o, t, left, consumed);
            && |h.kept| <= 1
            && (h.kept != [] ==> WfOrder(h.kept[0]) && Continues(o, h.kept[0]))
            && h.left >= 0.0 && NonNegative(h.consumed)
  {
  }

  lemma EvolvedCons(o: Resting, kept: seq<Resting>, before: seq<Resting>, after: seq<Resting>)
    requires Evolved(before, after) && |kept| <= 1
    requires kept != [] ==> Continues(o, kept[0])
    ensures Evolved([o] + before, kept + after)
  {
    assert ([o] + before)[1..] == before;
    if kept == [] {
      assert kept + after == after;
    } else {
      assert (kept + after)[1..] == after;
    }
  }

  lemma {:induction false} WalkEvolves(orders: seq<Resting>, t: Print, left: real, consumed: Levels)
    requires WfOrders(orders) && WfLevels(t.levels) && NonNegative(consumed) && left >= 0.0
    ensures var w := Walk(orders, t, left, consumed);
            WfOrders(w.orders) && Evolved(orders, w.orders)
  {
    if orders != [] {
      HitIsWf(orders[0], t, left, consumed);
      var h := HitOne(orders[0], t, left, consumed);
      var rest := if h.done then Walked(orders[1..], []) else Walk(orders[1..], t, h.left, h.consumed);
      if h.done {
        EvolvedSame(orders[1..]);
      } else {
        WalkEvolves(orders[1..], t, h.left, h.consumed);
      }
      EvolvedCons(orders[0], h.kept, orders[1..], rest.orders);
      assert [orders[0]] + orders[1..] == orders;
    }
  }

  /** Volume of the fills reported for one order. */
  function FilledBy(fills: seq<BookFill>, id: OrderId): real {
    if fills == [] then 0.0
    else (if fills[0].id == id then fills[0].size else 0.0) + FilledBy(fills[1..], id)
  }

  function RestingSize(orders: seq<Resting>, id: OrderId): real {
    if orders == [] then 0.0
    else (if orders[0].id == id then orders[0].size else 0.0) + RestingSize(orders[1..], id)
  }

  lemma {:induction false} RestingSizeIsFound(orders: seq<Resting>, id: OrderId)
    requires Distinct(orders)
    ensures RestingSize(orders, id) == if Tracks(orders, id) then Find(orders, id).value.size else 0.0
  {
    if orders != [] {
      assert forall i, j :: 0 <= i < j < |orders[1..]| ==>
               orders[1..][i] == orders[i + 1] && orders[1..][j] == orders[j + 1];
      RestingSizeIsFound(orders[1..], id);
      if orders[0].id == id {
        assert !Tracks(orders[1..], id);
      } else {
        assert Find(orders, id) == Find(orders[1..], id);
      }
    }
  }

  lemma RestingSizeConcat(a: seq<Resting>, b: seq<Resting>, id: OrderId)
    ensures RestingSize(a + b, id) == RestingSize(a, id) + RestingSize(b, id)
  {
    if a == [] {
      assert a + b == b;
    } else {
      assert (a + b)[1..] == a[1..] + b;
    }
  }

  lemma FilledByConcat(a: seq<BookFill>, b: seq<BookFill>, id: OrderId)
    ensures FilledBy(a + b, id) == FilledBy(a, id) + FilledBy(b, id)
  {
    if a == [] {
      assert a + b == b;
    } else {
      assert (a + b)[1..] == a[1..] + b;
    }
  }

  /** A trade neither creates nor destroys size: what an order loses is what it is filled. */
  lemma {:induction false} WalkConserves(orders: seq<Resting>, t: Print, left: real, consumed: Levels, id: OrderId)
    requires WfOrders(orders)
    ensures var w := Walk(orders, t, left, consumed);
            RestingSize(w.orders, id) + FilledBy(w.fills, id) == RestingSize(orders, id)
  {
    if orders != [] {
      assert WfOrder(orders[0]);
      var h := HitOne(orders[0], t, left, consumed);
      var rest := if h.done then Walked(orders[1..], []) else Walk(orders[1..], t, h.left, h.consumed);
      if !h.done {
        WalkConserves(orders[1..], t, h.left, h.consumed, id);
      }
      RestingSizeConcat(h.kept, rest.orders, id);
      FilledByConcat(h.fills, rest.fills, id);
    }
  }
}
