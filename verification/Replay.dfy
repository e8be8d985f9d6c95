/**
 Replay of captured shards: a k-way merge by timestamp, and the separate integrity scan.
 The scan's verdict is exactly what the merge needs to come out sorted.
 */
module Replay {
  import opened Prelude
  import opened OrderBook
  import opened TradingDesk
  import opened EventOrder

  /** A parsed event with the time it was received. */
  datatype Record = Record(event: MarketEvent, recvTs: int)

  /** A line of a shard once decoding and parsing were tried on it. */
  datatype Line = Blank | Undecodable | UnknownType | Invalid | Parsed(record: Record)

  datatype Shard = Shard(assetId: string, path: string, lines: seq<Line>)

  function EventsIn(lines: seq<Line>): seq<Record> {
    if lines == [] then []
    else (if lines[0].Parsed? then [lines[0].record] else []) + EventsIn(lines[1..])
  }

  // ---------- what a merge is ----------

  /** The part of a merge that is attributed to one shard. */
  function Picked(out: seq<Record>, source: seq<nat>, s: nat): seq<Record>
    requires |source| == |out|
  {
    if out == [] then []
    else Picked(out[..|out| - 1], source[..|out| - 1], s)
         + (if source[|out| - 1] == s then [out[|out| - 1]] else [])
  }

  /** Nothing lost, nothing invented, and every shard in its own order. */
  ghost predicate Interleaves(out: seq<Record>, source: seq<nat>, shards: seq<Shard>) {
    && |source| == |out|
    && (forall i :: 0 <= i < |source| ==> source[i] < |shards|)
    && (forall s :: 0 <= s < |shards| ==> Picked(out, source, s) == EventsIn(shards[s].lines))
  }

  ghost predicate InOrder(records: seq<Record>) {
    forall i, j :: 0 <= i < j < |records| ==> records[i].event.ts <= records[j].event.ts
  }

  ghost predicate EachInOrder(shards: seq<Shard>) {
    forall s :: 0 <= s < |shards| ==> InOrder(EventsIn(shards[s].lines))
  }

  lemma {:induction false} PickedMembers(out: seq<Record>, source: seq<nat>, s: nat, bound: Millis)
    requires |source| == |out| && forall i :: 0 <= i < |out| ==> out[i].event.ts <= bound
    ensures forall i :: 0 <= i < |Picked(out, source, s)| ==> Picked(out, source, s)[i].event.ts <= bound
  {
    if out != [] { PickedMembers(out[..|out| - 1], source[..|out| - 1], s, bound); }
  }

  /** A shard of an ordered merge is ordered. */
  lemma {:induction false} PickedInOrder(out: seq<Record>, source: seq<nat>, s: nat)
    requires |source| == |out| && InOrder(out)
    ensures InOrder(Picked(out, source, s))
  {
    if out != [] {
      PickedInOrder(out[..|out| - 1], source[..|out| - 1], s);
      PickedMembers(out[..|out| - 1], source[..|out| - 1], s, out[|out| - 1].event.ts);
    }
  }

  lemma InterleavedInOrder(out: seq<Record>, source: seq<nat>, shards: seq<Shard>)
    requires Interleaves(out, source, shards) && InOrder(out)
    ensures EachInOrder(shards)
  {
    forall s | 0 <= s < |shards| ensures InOrder(EventsIn(shards[s].lines)) {
      PickedInOrder(out, source, s);
    }
  }

  // ---------- counting regressions ----------

  function Regressions(records: seq<Record>): nat {
    if |records| <= 1 then 0
    else Regressions(records[..|records| - 1])
         + (if records[|records| - 1].event.ts < records[|records| - 2].event.ts then 1 else 0)
  }

  function TotalRegressions(shards: seq<Shard>): nat {
    if shards == [] then 0
    else TotalRegressions(shards[..|shards| - 1]) + Regressions(EventsIn(shards[|shards| - 1].lines))
  }

  function TotalEvents(shards: seq<Shard>): nat {
    if shards == [] then 0
    else TotalEvents(shards[..|shards| - 1]) + |EventsIn(shards[|shards| - 1].lines)|
  }

  lemma {:induction false} OrderedIffNoRegression(records: seq<Record>)
    ensures InOrder(records) <==> Regressions(records) == 0
  {
    if |records| > 1 {
      var init, n := records[..|records| - 1], |records|;
      OrderedIffNoRegression(init);
      if InOrder(records) {
        assert forall i, j :: 0 <= i < j < |init| ==> records[i].event.ts <= records[j].event.ts;
        assert records[n - 2].event.ts <= records[n - 1].event.ts;
      }
      if Regressions(records) == 0 {
        forall i, j | 0 <= i < j < n ensures records[i].event.ts <= records[j].event.ts {
          assert j < n - 1 ==> init[i].event.ts <= init[j].event.ts;
          assert i < n - 2 ==> init[i].event.ts <= init[n - 2].event.ts;
        }
      }
    }
  }

  lemma {:induction false} AllOrderedIffNoRegression(shards: seq<Shard>)
    ensures EachInOrder(shards) <==> TotalRegressions(shards) == 0
  {
    if shards != [] {
      var init, last := shards[..|shards| - 1], shards[|shards| - 1];
      AllOrderedIffNoRegression(init);
      OrderedIffNoRegression(EventsIn(last.lines));
      assert EachInOrder(shards) <==> EachInOrder(init) && InOrder(EventsIn(last.lines)) by {
        assert forall s :: 0 <= s < |init| ==> init[s] == shards[s];
        if EachInOrder(init) && InOrder(EventsIn(last.lines)) {
          forall s | 0 <= s < |shards| ensures InOrder(EventsIn(shards[s].lines)) {
            if s < |init| { assert InOrder(EventsIn(init[s].lines)); }
          }
        }
        if EachInOrder(shards) { assert InOrder(EventsIn(shards[|init|].lines)); }
      }
    }
  }

  // ---------- the heap of the merge ----------

  /** A shard's next event: key, the event, and which shard it came from. */
  datatype Entry = Entry(ts: Millis, recvTs: int, tie: nat, record: Record, shard: nat)

  predicate Less(a: Entry, b: Entry) {
    a.ts < b.ts || (a.ts == b.ts && (a.recvTs < b.recvTs || (a.recvTs == b.recvTs && a.tie < b.tie)))
  }

  /** Extract-min: the least entry under (timestamp, receive time, tie number). */
  method PopLeast(heap: seq<Entry>) returns (e: Entry, rest: seq<Entry>, ghost at: nat)
    requires heap != [] && forall i, j :: 0 <= i < j < |heap| ==> heap[i].tie != heap[j].tie
    ensures at < |heap| && heap[at] == e && rest == heap[..at] + heap[at + 1..]
    ensures forall i :: 0 <= i < |rest| ==> Less(e, rest[i])
    ensures forall i :: 0 <= i < |rest| ==>
              && e.ts <= rest[i].ts
              && (e.ts == rest[i].ts ==> e.recvTs <= rest[i].recvTs)
              && (e.ts == rest[i].ts && e.recvTs == rest[i].recvTs ==> e.tie < rest[i].tie)
  {
    var least := 0;
    for i := 1 to |heap|
      invariant 0 <= least < i
      invariant forall k :: 0 <= k < i && k != least ==> Less(heap[least], heap[k])
    {
      if Less(heap[i], heap[least]) {
        least := i;
      }
    }
    e, at := heap[least], least;
    rest := heap[..least] + heap[least + 1..];
  }

  /** The lazy reader of one shard: skips what does not parse, yields the next event. */
  method ReadNext(lines: seq<Line>, pos: nat) returns (next: Option<Record>, after: nat)
    requires pos <= |lines|
    ensures pos <= after <= |lines|
    ensures next == None ==> EventsIn(lines[pos..]) == [] && EventsIn(lines[after..]) == []
    ensures next.Some? ==> EventsIn(lines[pos..]) == [next.value] + EventsIn(lines[after..])
  {
    after := pos;
    while after < |lines|
      invariant pos <= after <= |lines|
      invariant EventsIn(lines[pos..]) == EventsIn(lines[after..])
    {
      var line := lines[after];
      assert lines[after..][1..] == lines[after + 1..];
      after := after + 1;
      if line.Parsed? {
        return Some(line.record), after;
      }
    }
    return None, after;
  }

  // ---------- the merge ----------

  /** Each shard has at most one entry on the heap; tie numbers are distinct and below `ties`. */
  ghost predicate HeapOk(heap: seq<Entry>, ties: nat) {
    && (forall i :: 0 <= i < |heap| ==> heap[i].tie < ties && heap[i].ts == heap[i].record.event.ts)
    && (forall i, j :: 0 <= i < j < |heap| ==> heap[i].tie != heap[j].tie && heap[i].shard != heap[j].shard)
  }

  ghost predicate OnHeap(heap: seq<Entry>, s: nat) {
    exists i :: 0 <= i < |heap| && heap[i].shard == s
  }

  ghost predicate CursorsOk(cursor: seq<nat>, shards: seq<Shard>) {
    |cursor| == |shards| && forall s :: 0 <= s < |shards| ==> cursor[s] <= |shards[s].lines|
  }

  /** Output, heap entry and unread lines of a shard make up its events. */
  ghost predicate EntryAccounts(out: seq<Record>, source: seq<nat>, e: Entry, cursor: seq<nat>, shards: seq<Shard>) {
    && |source| == |out| && CursorsOk(cursor, shards) && e.shard < |shards|
    && Picked(out, source, e.shard) + ([e.record] + EventsIn(shards[e.shard].lines[cursor[e.shard]..]))
       == EventsIn(shards[e.shard].lines)
  }

  ghost predicate Exhausted(out: seq<Record>, source: seq<nat>, s: nat, shards: seq<Shard>) {
    |source| == |out| && s < |shards| && Picked(out, source, s) == EventsIn(shards[s].lines)
  }

  /** The merge in progress; the first `primed` shards have had their reader started. */
  ghost predicate Merging(out: seq<Record>, source: seq<nat>, heap: seq<Entry>, ties: nat, cursor: seq<nat>,
                          shards: seq<Shard>, primed: nat) {
    && |source| == |out| && (forall i :: 0 <= i < |source| ==> source[i] < |shards|)
    && CursorsOk(cursor, shards) && HeapOk(heap, ties) && primed <= |shards|
    && (forall i :: 0 <= i < |heap| ==> heap[i].shard < primed && EntryAccounts(out, source, heap[i], cursor, shards))
    && (forall s :: 0 <= s < primed && !OnHeap(heap, s) ==> Exhausted(out, source, s, shards))
  }

  /** Nothing waiting is earlier than what was put out. */
  ghost predicate OrderedSoFar(out: seq<Record>, heap: seq<Entry>) {
    InOrder(out) && forall i :: 0 <= i < |heap| && out != [] ==> out[|out| - 1].event.ts <= heap[i].ts
  }

  method Push(heap: seq<Entry>, record: Record, tie: nat, shard: nat) returns (after: seq<Entry>)
    ensures after == heap + [Entry(record.event.ts, record.recvTs, tie, record, shard)]
  {
    after := heap + [Entry(record.event.ts, record.recvTs, tie, record, shard)];
  }

  lemma OnHeapAppend(heap: seq<Entry>, e: Entry)
    ensures forall s: nat :: OnHeap(heap + [e], s) <==> OnHeap(heap, s) || s == e.shard
  {
    forall s: nat ensures OnHeap(heap + [e], s) <==> OnHeap(heap, s) || s == e.shard {
      assert (heap + [e])[|heap|] == e;
      if OnHeap(heap, s) {
        var i :| 0 <= i < |heap| && heap[i].shard == s;
        assert (heap + [e])[i].shard == s;
      }
    }
  }

  /** Starting the reader of the next shard. */
  lemma PrimedShard(heap: seq<Entry>, ties: nat, cursor: seq<nat>, shards: seq<Shard>, s: nat,
                    next: Option<Record>, pos: nat, heap': seq<Entry>, ties': nat)
    requires s < |shards| && Merging([], [], heap, ties, cursor, shards, s) && cursor[s] == 0
             && pos <= |shards[s].lines|
    requires next == None ==> EventsIn(shards[s].lines) == [] && heap' == heap && ties' == ties
    requires next.Some? ==>
               && EventsIn(shards[s].lines) == [next.value] + EventsIn(shards[s].lines[pos..])
               && heap' == heap + [Entry(next.value.event.ts, next.value.recvTs, ties, next.value, s)]
                  && ties' == ties + 1
    ensures Merging([], [], heap', ties', cursor[s := pos], shards, s + 1)
  {
    hide EntryAccounts, Exhausted, OnHeap;
    var cursor' := cursor[s := pos];
    forall i | 0 <= i < |heap'| ensures heap'[i].shard < s + 1 && EntryAccounts([], [], heap'[i], cursor', shards) {
      if i < |heap| {
        assert EntryAccounts([], [], heap[i], cursor, shards);
        UnmovedEntry(heap[i], cursor, shards, s, pos);
      } else {
        FirstEntry(heap'[i], cursor', shards);
      }
    }
    if next.Some? { OnHeapAppend(heap, heap'[|heap|]); }
    if next == None { NothingToRead(s, shards); }
    assert forall r: nat :: r < s && !OnHeap(heap', r) ==> Exhausted([], [], r, shards);
    assert !OnHeap(heap', s) ==> Exhausted([], [], s, shards);
  }

  lemma UnmovedEntry(e: Entry, cursor: seq<nat>, shards: seq<Shard>, s: nat, pos: nat)
    requires EntryAccounts([], [], e, cursor, shards) && e.shard != s && s < |shards| && pos <= |shards[s].lines|
    ensures EntryAccounts([], [], e, cursor[s := pos], shards)
  {
  }

  lemma FirstEntry(e: Entry, cursor: seq<nat>, shards: seq<Shard>)
    requires CursorsOk(cursor, shards) && e.shard < |shards|
    requires EventsIn(shards[e.shard].lines) == [e.record] + EventsIn(shards[e.shard].lines[cursor[e.shard]..])
    ensures EntryAccounts([], [], e, cursor, shards)
  {
    var all := EventsIn(shards[e.shard].lines);
    assert Picked([], [], e.shard) + all == all;
  }

  lemma NothingToRead(s: nat, shards: seq<Shard>)
    requires s < |shards| && EventsIn(shards[s].lines) == []
    ensures Exhausted([], [], s, shards)
  {
  }

  method Prime(shards: seq<Shard>) returns (heap: seq<Entry>, ties: nat, cursor: seq<nat>)
    ensures Merging([], [], heap, ties, cursor, shards, |shards|)
  {
    hide EntryAccounts, Exhausted, OnHeap;
    heap, ties, cursor := [], 0, seq(|shards|, i => 0);
    for s := 0 to |shards|
      invariant Merging([], [], heap, ties, cursor, shards, s)
      invariant forall r :: s <= r < |shards| ==> cursor[r] == 0
    {
      var next, pos := ReadNext(shards[s].lines, 0);
      assert shards[s].lines[0..] == shards[s].lines;
      ghost var before, count := heap, ties;
      if next.Some? {
        heap := Push(heap, next.value, ties, s);
        ties := ties + 1;
      }
      PrimedShard(before, count, cursor, shards, s, next, pos, heap, ties);
      cursor := cursor[s := pos];
    }
  }

  /** Putting out the least entry and reading on in its shard. */
  lemma AdvancedEntry(out: seq<Record>, source: seq<nat>, e: Entry, other: Entry, cursor: seq<nat>, shards: seq<Shard>,
                      pos: nat)
    requires EntryAccounts(out, source, other, cursor, shards) && other.shard != e.shard && e.shard < |shards|
    requires pos <= |shards[e.shard].lines|
    ensures EntryAccounts(out + [e.record], source + [e.shard], other, cursor[e.shard := pos], shards)
  {
  }

  lemma AdvancedSelf(out: seq<Record>, source: seq<nat>, e: Entry, cursor: seq<nat>, shards: seq<Shard>, pos: nat,
                     next: Option<Record>, tie: nat)
    requires EntryAccounts(out, source, e, cursor, shards) && cursor[e.shard] <= pos <= |shards[e.shard].lines|
    requires var unread := EventsIn(shards[e.shard].lines[cursor[e.shard]..]);
             if next == None then unread == [] else unread == [next.value] + EventsIn(shards[e.shard].lines[pos..])
    ensures next == None ==> Exhausted(out + [e.record], source + [e.shard], e.shard, shards)
    ensures next.Some? ==> EntryAccounts(out + [e.record], source + [e.shard],
                                         Entry(next.value.event.ts, next.value.recvTs, tie, next.value, e.shard),
                                         cursor[e.shard := pos], shards)
  {
    var picked, unread := Picked(out, source, e.shard), EventsIn(shards[e.shard].lines[cursor[e.shard]..]);
    assert picked + ([e.record] + unread) == (picked + [e.record]) + unread;
  }

  /** In an ordered shard the next event is not earlier than the one just put out. */
  lemma NextNotEarlier(out: seq<Record>, source: seq<nat>, e: Entry, cursor: seq<nat>, shards: seq<Shard>, r: Record,
                       rest: seq<Record>)
    requires EntryAccounts(out, source, e, cursor, shards) && EachInOrder(shards)
    requires EventsIn(shards[e.shard].lines[cursor[e.shard]..]) == [r] + rest
    ensures e.record.event.ts <= r.event.ts
  {
    var all, k := EventsIn(shards[e.shard].lines), |Picked(out, source, e.shard)|;
    assert InOrder(all);
    assert all[k] == e.record && all[k + 1] == r;
  }

  lemma RestMembers(heap: seq<Entry>, at: nat, rest: seq<Entry>, ties: nat)
    requires HeapOk(heap, ties) && at < |heap| && rest == heap[..at] + heap[at + 1..]
    ensures HeapOk(rest, ties) && forall i :: 0 <= i < |rest| ==> rest[i] in heap && rest[i].shard != heap[at].shard
    ensures forall s: nat :: s != heap[at].shard ==> (OnHeap(rest, s) <==> OnHeap(heap, s))
  {
    assert forall i :: 0 <= i < |rest| ==> rest[i] == heap[if i < at then i else i + 1];
    forall s: nat | s != heap[at].shard && OnHeap(heap, s) ensures OnHeap(rest, s) {
      var i :| 0 <= i < |heap| && heap[i].shard == s;
      assert rest[if i < at then i else i - 1] == heap[i];
    }
  }

  lemma Advanced(out: seq<Record>, source: seq<nat>, heap: seq<Entry>, ties: nat, cursor: seq<nat>, shards: seq<Shard>,
                 at: nat, rest: seq<Entry>, next: Option<Record>, pos: nat, heap': seq<Entry>, ties': nat)
    requires Merging(out, source, heap, ties, cursor, shards, |shards|) && at < |heap|
             && rest == heap[..at] + heap[at + 1..]
    requires cursor[heap[at].shard] <= pos <= |shards[heap[at].shard].lines|
    requires var unread := EventsIn(shards[heap[at].shard].lines[cursor[heap[at].shard]..]);
             if next == None then unread == []
             else unread == [next.value] + EventsIn(shards[heap[at].shard].lines[pos..])
    requires if next == None then heap' == rest && ties' == ties
             else && heap' == rest + [Entry(next.value.event.ts, next.value.recvTs, ties, next.value, heap[at].shard)]
                  && ties' == ties + 1
    ensures Merging(out + [heap[at].record], source + [heap[at].shard], heap', ties', cursor[heap[at].shard := pos],
                    shards, |shards|)
  {
    hide EntryAccounts, Exhausted, OnHeap;
    var e, cursor' := heap[at], cursor[heap[at].shard := pos];
    var out', source' := out + [e.record], source + [e.shard];
    assert EntryAccounts(out, source, e, cursor, shards);
    RestMembers(heap, at, rest, ties);
    AdvancedSelf(out, source, e, cursor, shards, pos, next, ties);
    forall i | 0 <= i < |heap'|
      ensures heap'[i].shard < |shards| && EntryAccounts(out', source', heap'[i], cursor', shards) {
      if i < |rest| {
        assert rest[i] in heap;
        AdvancedEntry(out, source, e, rest[i], cursor, shards, pos);
      }
    }
    if next.Some? { OnHeapAppend(rest, heap'[|rest|]); }
    forall s: nat | s < |shards| && !OnHeap(heap', s) ensures Exhausted(out', source', s, shards) {
      if s != e.shard {
        assert Exhausted(out, source, s, shards);
        StillExhausted(out, source, e, s, shards);
      }
    }
  }

  lemma StillExhausted(out: seq<Record>, source: seq<nat>, e: Entry, s: nat, shards: seq<Shard>)
    requires Exhausted(out, source, s, shards) && e.shard != s
    ensures Exhausted(out + [e.record], source + [e.shard], s, shards)
  {
  }

  lemma StaysOrdered(out: seq<Record>, heap: seq<Entry>, e: Entry, rest: seq<Entry>, heap': seq<Entry>, ties: nat)
    requires OrderedSoFar(out, heap) && HeapOk(heap, ties) && e in heap
    requires forall i :: 0 <= i < |rest| ==> Less(e, rest[i])
    requires heap' == rest || (|heap'| == |rest| + 1 && heap'[..|rest|] == rest && e.ts <= heap'[|rest|].ts)
    ensures OrderedSoFar(out + [e.record], heap')
  {
    var out' := out + [e.record];
    assert e.ts == e.record.event.ts;
    forall i | 0 <= i < |heap'| ensures out'[|out|].event.ts <= heap'[i].ts {
      if i < |rest| { assert heap'[i] == rest[i]; }
    }
  }

  // ---------- feeding the engine ----------

  function TapeOf(records: seq<Record>): seq<MarketEvent> {
    seq(|records|, i requires 0 <= i < |records| => records[i].event)
  }

  /** Records in order of time make the sorted tape the engine relies on, and no others do. */
  lemma OrderedIsSortedTape(out: seq<Record>)
    ensures InOrder(out) <==> SortedTape(TapeOf(out))
  {
    var tape := TapeOf(out);
    if SortedTape(tape) {
      forall i, j | 0 <= i < j < |out| ensures out[i].event.ts <= out[j].event.ts {
        assert tape[i].ts <= tape[j].ts;
      }
    }
  }

  /**
   The replay. Its output interleaves the shards' events, and it is in order of time, and with it the
   tape it hands to the engine, exactly when no shard has a regression.
   */
  method Merge(shards: seq<Shard>) returns (out: seq<Record>, ghost source: seq<nat>)
    ensures Interleaves(out, source, shards)
    ensures |out| == TotalEvents(shards)
    ensures InOrder(out) <==> TotalRegressions(shards) == 0
    ensures SortedTape(TapeOf(out)) <==> TotalRegressions(shards) == 0
  {
    hide EntryAccounts, Exhausted, OnHeap, InOrder, EachInOrder, Less, HeapOk, SortedTape, TapeOf;
    out, source := [], [];
    var heap, ties, cursor := Prime(shards);
    NothingOutOfOrder(heap);
    while heap != []
      invariant Merging(out, source, heap, ties, cursor, shards, |shards|)
      invariant EachInOrder(shards) ==> OrderedSoFar(out, heap)
      decreases Unread(cursor, shards) + |heap|
    {
      ghost var heap0, ties0, cursor0 := heap, ties, cursor;
      DistinctTies(heap, ties);
      var e, rest; ghost var at;
      e, rest, at := PopLeast(heap);
      assert EntryAccounts(out, source, heap[at], cursor, shards);
      var next, pos := ReadNext(shards[e.shard].lines, cursor[e.shard]);
      heap := rest;
      if next.Some? {
        heap := Push(heap, next.value, ties, e.shard);
        ties := ties + 1;
      }
      Advanced(out, source, heap0, ties0, cursor0, shards, at, rest, next, pos, heap, ties);
      if EachInOrder(shards) {
        KeyIsTime(heap0, ties0, at);
        if next.Some? {
          NextNotEarlier(out, source, e, cursor0, shards, next.value, EventsIn(shards[e.shard].lines[pos..]));
        }
        StaysOrdered(out, heap0, e, rest, heap, ties0);
      }
      cursor := cursor[e.shard := pos];
      UnreadShrinks(cursor0, shards, e.shard, pos, next);
      out, source := out + [e.record], source + [e.shard];
    }
    MergeIsOver(out, source, ties, cursor, shards);
    AllOrderedIffNoRegression(shards);
    if InOrder(out) { InterleavedInOrder(out, source, shards); }
    CountInterleaved(out, source, shards);
    OrderedIsSortedTape(out);
  }

  /** Events not yet read, over all shards. */
  ghost function Unread(cursor: seq<nat>, shards: seq<Shard>): nat
    requires CursorsOk(cursor, shards)
  {
    if shards == [] then 0
    else
      assert CursorsOk(cursor[..|shards| - 1], shards[..|shards| - 1]);
      Unread(cursor[..|shards| - 1], shards[..|shards| - 1])
          + |EventsIn(shards[|shards| - 1].lines[cursor[|shards| - 1]..])|
  }

  lemma {:induction false} UnreadAt(cursor: seq<nat>, shards: seq<Shard>, s: nat, pos: nat)
    requires CursorsOk(cursor, shards) && s < |shards| && pos <= |shards[s].lines|
    ensures CursorsOk(cursor[s := pos], shards)
    ensures Unread(cursor[s := pos], shards) + |EventsIn(shards[s].lines[cursor[s]..])|
            == Unread(cursor, shards) + |EventsIn(shards[s].lines[pos..])|
  {
    var n, init := |shards| - 1, shards[..|shards| - 1];
    var after := cursor[s := pos];
    assert CursorsOk(cursor[..n], init);
    if s == n {
      assert after[..n] == cursor[..n];
    } else {
      assert after[..n] == cursor[..n][s := pos];
      UnreadAt(cursor[..n], init, s, pos);
    }
  }

  lemma UnreadShrinks(cursor: seq<nat>, shards: seq<Shard>, s: nat, pos: nat, next: Option<Record>)
    requires CursorsOk(cursor, shards) && s < |shards| && pos <= |shards[s].lines|
    requires var unread := EventsIn(shards[s].lines[cursor[s]..]);
             if next == None then unread == [] && EventsIn(shards[s].lines[pos..]) == []
             else unread == [next.value] + EventsIn(shards[s].lines[pos..])
    ensures CursorsOk(cursor[s := pos], shards)
    ensures Unread(cursor[s := pos], shards) + (if next == None then 0 else 1) == Unread(cursor, shards)
  {
    UnreadAt(cursor, shards, s, pos);
  }

  lemma NothingOutOfOrder(heap: seq<Entry>)
    ensures OrderedSoFar([], heap)
  {
  }

  lemma DistinctTies(heap: seq<Entry>, ties: nat)
    requires HeapOk(heap, ties)
    ensures forall i, j :: 0 <= i < j < |heap| ==> heap[i].tie != heap[j].tie
  {
  }

  lemma KeyIsTime(heap: seq<Entry>, ties: nat, at: nat)
    requires HeapOk(heap, ties) && at < |heap|
    ensures heap[at].ts == heap[at].record.event.ts
  {
  }

  lemma MergeIsOver(out: seq<Record>, source: seq<nat>, ties: nat, cursor: seq<nat>, shards: seq<Shard>)
    requires Merging(out, source, [], ties, cursor, shards, |shards|)
    ensures Interleaves(out, source, shards)
  {
    forall s: nat | s < |shards| ensures Picked(out, source, s) == EventsIn(shards[s].lines) {
      assert !OnHeap([], s);
    }
  }

  // ---------- counting the output ----------

  lemma {:induction false} PickedCount(out: seq<Record>, source: seq<nat>, shards: seq<Shard>)
    requires Interleaves(out, source, shards)
    ensures |out| == PickedTotal(out, source, |shards|) == TotalEvents(shards)
  {
    CountAll(out, source, |shards|);
    TotalsAgree(out, source, shards, |shards|);
  }

  function PickedTotal(out: seq<Record>, source: seq<nat>, n: nat): nat
    requires |source| == |out|
  {
    if n == 0 then 0 else PickedTotal(out, source, n - 1) + |Picked(out, source, n - 1)|
  }

  lemma {:induction false} PickedTotalNext(out: seq<Record>, source: seq<nat>, n: nat)
    requires |source| == |out| && out != []
    ensures PickedTotal(out, source, n)
            == PickedTotal(out[..|out| - 1], source[..|out| - 1], n) + (if source[|out| - 1] < n then 1 else 0)
  {
    if n > 0 { PickedTotalNext(out, source, n - 1); }
  }

  lemma {:induction false} NothingPicked(n: nat)
    ensures PickedTotal([], [], n) == 0
  {
    if n > 0 { NothingPicked(n - 1); }
  }

  lemma {:induction false} CountAll(out: seq<Record>, source: seq<nat>, n: nat)
    requires |source| == |out| && forall i :: 0 <= i < |source| ==> source[i] < n
    ensures PickedTotal(out, source, n) == |out|
  {
    if out == [] {
      NothingPicked(n);
    } else {
      PickedTotalNext(out, source, n);
      CountAll(out[..|out| - 1], source[..|out| - 1], n);
    }
  }

  lemma {:induction false} TotalsAgree(out: seq<Record>, source: seq<nat>, shards: seq<Shard>, n: nat)
    requires Interleaves(out, source, shards) && n <= |shards|
    ensures PickedTotal(out, source, n) == TotalEvents(shards[..n])
    ensures shards[..|shards|] == shards
  {
    if n > 0 {
      TotalsAgree(out, source, shards, n - 1);
      assert shards[..n][..n - 1] == shards[..n - 1];
    }
  }

  lemma CountInterleaved(out: seq<Record>, source: seq<nat>, shards: seq<Shard>)
    requires Interleaves(out, source, shards)
    ensures |out| == TotalEvents(shards)
  {
    PickedCount(out, source, shards);
  }
}
