/**
 What the integrity scan says about an asset. An asset has one shard for each capture date, and the
 scan starts afresh at every shard: within a shard it counts each regression, where one date's shard
 ends and the next begins it counts none.
 */
module AssetStreams {
  import opened TradingDesk
  import opened Replay
  import opened ReplayScan

  /** The events of one asset, shard after shard, as they are scanned. */
  function StreamOf(shards: seq<Shard>, asset: string): seq<Record> {
    if shards == [] then []
    else
      var last := shards[|shards| - 1];
      StreamOf(shards[..|shards| - 1], asset) + (if last.assetId == asset then EventsIn(last.lines) else [])
  }

  /** The gaps of a report that are about one asset. */
  function GapsOf(gaps: seq<Gap>, asset: string): seq<Gap> {
    if gaps == [] then []
    else
      var last := gaps[|gaps| - 1];
      GapsOf(gaps[..|gaps| - 1], asset) + (if last.assetId == asset then [last] else [])
  }

  /** Shard `t` continues the asset's stream right after shard `s`. */
  ghost predicate Continues(shards: seq<Shard>, asset: string, s: nat, t: nat) {
    && s < t < |shards| && shards[s].assetId == asset && shards[t].assetId == asset
    && EventsIn(shards[s].lines) != [] && EventsIn(shards[t].lines) != []
    && forall m :: s < m < t && shards[m].assetId == asset ==> EventsIn(shards[m].lines) == []
  }

  ghost predicate DropsAt(shards: seq<Shard>, asset: string, s: nat, t: nat) {
    && Continues(shards, asset, s, t)
    && var before := EventsIn(shards[s].lines);
       EventsIn(shards[t].lines)[0].event.ts < before[|before| - 1].event.ts
  }

  /** Where the asset's stream goes on in another shard, time does not go back. */
  ghost predicate BoundariesKept(shards: seq<Shard>, asset: string) {
    forall s: nat, t: nat :: !DropsAt(shards, asset, s, t)
  }

  // ---------- counting ----------

  /** One stream goes on with the events of another, later than the last of it or not. */
  predicate Drops(before: seq<Record>, after: seq<Record>) {
    before != [] && after != [] && after[0].event.ts < before[|before| - 1].event.ts
  }

  /** Shard boundaries at which the asset's stream goes back in time. */
  function BoundaryDrops(shards: seq<Shard>, asset: string): nat {
    if shards == [] then 0
    else
      var init, last := shards[..|shards| - 1], shards[|shards| - 1];
      BoundaryDrops(init, asset)
      + (if last.assetId == asset && Drops(StreamOf(init, asset), EventsIn(last.lines)) then 1 else 0)
  }

  lemma {:induction false} RegressionsConcat(a: seq<Record>, b: seq<Record>)
    ensures Regressions(a + b) == Regressions(a) + Regressions(b) + (if Drops(a, b) then 1 else 0)
  {
    if b == [] {
      assert a + b == a;
    } else {
      var init, last := b[..|b| - 1], b[|b| - 1];
      RegressionsConcat(a, init);
      assert a + b == (a + init) + [last] && b == init + [last];
      RegressionsAppend(a + init, last);
      RegressionsAppend(init, last);
    }
  }

  lemma {:induction false} GapsOfConcat(a: seq<Gap>, b: seq<Gap>, asset: string)
    ensures GapsOf(a + b, asset) == GapsOf(a, asset) + GapsOf(b, asset)
  {
    if b == [] {
      assert a + b == a;
    } else {
      var init := b[..|b| - 1];
      assert (a + b)[..|a + b| - 1] == a + init;
      GapsOfConcat(a, init, asset);
    }
  }

  /** The gaps of a shard are all about its asset. */
  lemma {:induction false} ShardGaps(shard: Shard, n: nat, asset: string)
    requires n <= |shard.lines|
    ensures GapsOf(GapsUpTo(shard, n), asset) == if shard.assetId == asset then GapsUpTo(shard, n) else []
  {
    if n > 0 {
      ShardGaps(shard, n - 1, asset);
      if Regresses(shard.lines, n - 1) {
        var gaps, gap := GapsUpTo(shard, n - 1), GapAt(shard, n - 1);
        assert GapsUpTo(shard, n) == gaps + [gap];
        assert (gaps + [gap])[..|gaps|] == gaps && (gaps + [gap])[|gaps|] == gap;
      } else {
        assert GapsUpTo(shard, n) == GapsUpTo(shard, n - 1);
      }
    }
  }

  /**
   The regressions of an asset's stream are those the scan reports for it and, besides, the shard
   boundaries at which its time goes back.
   */
  lemma {:induction false} StreamRegressions(shards: seq<Shard>, asset: string)
    ensures Regressions(StreamOf(shards, asset)) == |GapsOf(AllGaps(shards), asset)| + BoundaryDrops(shards, asset)
  {
    hide Regressions, EventsIn, GapsUpTo;
    if shards == [] {
      NoLines();
    } else {
      var init, last := shards[..|shards| - 1], shards[|shards| - 1];
      StreamRegressions(init, asset);
      RegressionsConcat(StreamOf(init, asset), EventsIn(last.lines));
      GapsOfConcat(AllGaps(init), GapsUpTo(last, |last.lines|), asset);
      ShardGaps(last, |last.lines|, asset);
      GapsAreRegressions(last, |last.lines|);
      assert last.lines[..|last.lines|] == last.lines;
      assert StreamOf(init, asset) + [] == StreamOf(init, asset);
    }
  }

  // ---------- boundaries ----------

  /** Where the stream ends: with the last shard of the asset that has an event. */
  lemma {:induction false} StreamEnd(shards: seq<Shard>, asset: string) returns (s: nat)
    requires StreamOf(shards, asset) != []
    ensures s < |shards| && shards[s].assetId == asset && EventsIn(shards[s].lines) != []
    ensures forall m :: s < m < |shards| && shards[m].assetId == asset ==> EventsIn(shards[m].lines) == []
    ensures var stream, events := StreamOf(shards, asset), EventsIn(shards[s].lines);
            stream[|stream| - 1] == events[|events| - 1]
  {
    hide EventsIn;
    var n := |shards| - 1;
    if shards[n].assetId == asset && EventsIn(shards[n].lines) != [] {
      s := n;
    } else {
      s := StreamEnd(shards[..n], asset);
      forall m | s < m < |shards| && shards[m].assetId == asset ensures EventsIn(shards[m].lines) == [] {
        if m < n { assert shards[..n][m] == shards[m]; }
      }
    }
  }

  lemma {:induction false} NoEventsNoStream(shards: seq<Shard>, asset: string)
    requires StreamOf(shards, asset) == []
    ensures forall s :: 0 <= s < |shards| && shards[s].assetId == asset ==> EventsIn(shards[s].lines) == []
  {
    hide EventsIn;
    if shards != [] {
      var n := |shards| - 1;
      NoEventsNoStream(shards[..n], asset);
      forall s | 0 <= s < |shards| && shards[s].assetId == asset ensures EventsIn(shards[s].lines) == [] {
        if s < n { assert shards[..n][s] == shards[s]; }
      }
    }
  }

  /** The last shard brings a drop exactly if it drops against the shard it continues. */
  lemma LastBoundary(shards: seq<Shard>, asset: string)
    requires shards != []
    ensures var n := |shards| - 1;
            (shards[n].assetId == asset && Drops(StreamOf(shards[..n], asset), EventsIn(shards[n].lines)))
            <==> exists s: nat :: DropsAt(shards, asset, s, n)
  {
    hide EventsIn, StreamOf;
    var n := |shards| - 1;
    var init := shards[..n];
    if StreamOf(init, asset) == [] {
      NoEventsNoStream(init, asset);
      forall s: nat ensures !DropsAt(shards, asset, s, n) {
        if s < n { assert init[s] == shards[s]; }
      }
    } else {
      var e := StreamEnd(init, asset);
      assert forall m :: 0 <= m < n ==> init[m] == shards[m];
      forall s: nat | Continues(shards, asset, s, n) ensures s == e {
        assert init[s] == shards[s];
      }
      if shards[n].assetId == asset && Drops(StreamOf(init, asset), EventsIn(shards[n].lines)) {
        assert DropsAt(shards, asset, e, n);
      }
    }
  }

  lemma {:induction false} NoDropIffKept(shards: seq<Shard>, asset: string)
    ensures BoundaryDrops(shards, asset) == 0 <==> BoundariesKept(shards, asset)
  {
    if shards != [] {
      var n := |shards| - 1;
      var init := shards[..n];
      NoDropIffKept(init, asset);
      LastBoundary(shards, asset);
      forall s: nat, t: nat | t < n ensures DropsAt(init, asset, s, t) == DropsAt(shards, asset, s, t) {
        ShorterDrops(shards, asset, s, t);
      }
      hide EventsIn, StreamOf, Continues;
      forall s: nat, t: nat ensures DropsAt(shards, asset, s, t) ==> DropsAt(init, asset, s, t) || t == n {
        if t < n { assert DropsAt(init, asset, s, t) == DropsAt(shards, asset, s, t); }
      }
      forall s: nat, t: nat ensures DropsAt(init, asset, s, t) ==> DropsAt(shards, asset, s, t) {
        if t < n { assert DropsAt(init, asset, s, t) == DropsAt(shards, asset, s, t); }
      }
    }
  }

  lemma ShorterDrops(shards: seq<Shard>, asset: string, s: nat, t: nat)
    requires t < |shards| - 1
    ensures DropsAt(shards[..|shards| - 1], asset, s, t) == DropsAt(shards, asset, s, t)
  {
    hide EventsIn;
    var init := shards[..|shards| - 1];
    assert forall m :: 0 <= m <= t ==> init[m] == shards[m];
  }

  // ---------- the theorems ----------

  /** The scan reports all the regressions of an asset's stream if and only if no boundary goes back in time. */
  lemma ReportedIffBoundariesKept(shards: seq<Shard>, asset: string)
    ensures |GapsOf(AllGaps(shards), asset)| == Regressions(StreamOf(shards, asset)) <==> BoundariesKept(shards, asset)
  {
    StreamRegressions(shards, asset);
    NoDropIffKept(shards, asset);
  }

  /** A report without gaps about any asset has no gaps. */
  lemma GapsAreAboutAssets(gaps: seq<Gap>)
    ensures gaps == [] <==> forall asset :: GapsOf(gaps, asset) == []
  {
    if gaps != [] {
      assert GapsOf(gaps, gaps[|gaps| - 1].assetId) != [];
    }
  }

  ghost predicate StreamInOrder(shards: seq<Shard>, asset: string) {
    InOrder(StreamOf(shards, asset))
  }

  lemma StreamInOrderIff(shards: seq<Shard>, asset: string)
    ensures StreamInOrder(shards, asset) <==> GapsOf(AllGaps(shards), asset) == [] && BoundariesKept(shards, asset)
  {
    StreamRegressions(shards, asset);
    NoDropIffKept(shards, asset);
    OrderedIffNoRegression(StreamOf(shards, asset));
  }

  /** Every asset's stream is in order if and only if the scan reports zero and every boundary is kept. */
  lemma StreamsInOrderIff(shards: seq<Shard>)
    ensures (forall asset :: StreamInOrder(shards, asset))
            <==> TotalRegressions(shards) == 0 && forall asset :: BoundariesKept(shards, asset)
  {
    hide StreamInOrder, BoundariesKept, AllGaps, TotalRegressions;
    GapCount(shards);
    GapsAreAboutAssets(AllGaps(shards));
    forall asset
      ensures StreamInOrder(shards, asset) <==> GapsOf(AllGaps(shards), asset) == [] && BoundariesKept(shards, asset)
    {
      StreamInOrderIff(shards, asset);
    }
    if forall asset :: StreamInOrder(shards, asset) {
      forall asset ensures GapsOf(AllGaps(shards), asset) == [] && BoundariesKept(shards, asset) {
        assert StreamInOrder(shards, asset);
      }
    }
  }

  /** What a clean scan leaves open: given a zero, the streams are in order iff every boundary is kept. */
  lemma CleanScanIff(shards: seq<Shard>)
    requires TotalRegressions(shards) == 0
    ensures (forall asset :: StreamInOrder(shards, asset)) <==> (forall asset :: BoundariesKept(shards, asset))
  {
    hide StreamInOrder, BoundariesKept, TotalRegressions;
    StreamsInOrderIff(shards);
  }

  // ---------- the failing case ----------

  const LATE: Record := Record(BookSnapshot(10, [], []), 10)
  const EARLY: Record := Record(BookSnapshot(5, [], []), 11)

  /** Two dates of one asset. */
  const TWO_DATES: seq<Shard> := [Shard("A", "2026-01-01/A.jsonl", [Parsed(LATE)]),
                                  Shard("A", "2026-01-02/A.jsonl", [Parsed(EARLY)])]

  /** The second date begins before the first one ends: the scan reports nothing, the asset's stream regresses. */
  lemma BoundaryRegressionGoesUnreported()
    ensures TotalRegressions(TWO_DATES) == 0 && AllGaps(TWO_DATES) == []
    ensures StreamOf(TWO_DATES, "A") == [LATE, EARLY] && Regressions(StreamOf(TWO_DATES, "A")) == 1
    ensures !StreamInOrder(TWO_DATES, "A") && DropsAt(TWO_DATES, "A", 0, 1)
  {
    hide EventsIn, Regressions, AllGaps, InOrder;
    var first, second := TWO_DATES[0], TWO_DATES[1];
    OneEvent(LATE);
    OneEvent(EARLY);
    assert TWO_DATES[..1] == [first] && [first][..0] == [];
    assert StreamOf([first], "A") == [LATE];
    assert TotalRegressions(TWO_DATES) == TotalRegressions(TWO_DATES[..1]) + Regressions(EventsIn(second.lines));
    RegressionsAppend([LATE], EARLY);
    OrderedIffNoRegression([LATE, EARLY]);
    GapCount(TWO_DATES);
  }

  lemma OneEvent(r: Record)
    ensures EventsIn([Parsed(r)]) == [r] && Regressions([r]) == 0
  {
    assert [Parsed(r)][1..] == [];
  }
}
