/**
 The integrity scan of a replay: one pass over every shard that counts events, bad lines and
 timestamp regressions, separately from the merge whose order it is meant to vouch for.
 The previous timestamp is forgotten at the start of each shard.
 */
module ReplayScan {
  import opened Prelude
  import opened OrderBook
  import opened Replay

  datatype Gap = Gap(assetId: string, path: string, lineNumber: nat, previous: Millis, current: Millis)

  datatype Report = Report(nEvents: nat, nParseErrors: nat, nUnknown: nat, nOutOfOrder: nat, gaps: seq<Gap>)

  // ---------- what the report must say ----------

  /** The last event before the end of `lines`. */
  function LastEvent(lines: seq<Line>): Option<Record> {
    if lines == [] then None
    else if lines[|lines| - 1].Parsed? then Some(lines[|lines| - 1].record)
    else LastEvent(lines[..|lines| - 1])
  }

  /** Line `k` holds an event earlier than the event before it in the shard. */
  predicate Regresses(lines: seq<Line>, k: nat)
    requires k < |lines|
  {
    && lines[k].Parsed? && LastEvent(lines[..k]).Some?
    && lines[k].record.event.ts < LastEvent(lines[..k]).value.event.ts
  }

  function GapAt(shard: Shard, k: nat): Gap
    requires k < |shard.lines| && Regresses(shard.lines, k)
  {
    Gap(shard.assetId, shard.path, k + 1, LastEvent(shard.lines[..k]).value.event.ts, shard.lines[k].record.event.ts)
  }

  /** One gap for each regressing line among the first `n`, in order. */
  function GapsUpTo(shard: Shard, n: nat): seq<Gap>
    requires n <= |shard.lines|
  {
    if n == 0 then []
    else GapsUpTo(shard, n - 1) + (if Regresses(shard.lines, n - 1) then [GapAt(shard, n - 1)] else [])
  }

  function AllGaps(shards: seq<Shard>): seq<Gap> {
    if shards == [] then []
    else AllGaps(shards[..|shards| - 1]) + GapsUpTo(shards[|shards| - 1], |shards[|shards| - 1].lines|)
  }

  predicate IsBad(line: Line) {
    line.Undecodable? || line.Invalid?
  }

  function CountBad(lines: seq<Line>): nat {
    if lines == [] then 0 else CountBad(lines[..|lines| - 1]) + (if IsBad(lines[|lines| - 1]) then 1 else 0)
  }

  function CountUnknown(lines: seq<Line>): nat {
    if lines == [] then 0 else CountUnknown(lines[..|lines| - 1]) + (if lines[|lines| - 1].UnknownType? then 1 else 0)
  }

  function TotalBad(shards: seq<Shard>): nat {
    if shards == [] then 0 else TotalBad(shards[..|shards| - 1]) + CountBad(shards[|shards| - 1].lines)
  }

  function TotalUnknown(shards: seq<Shard>): nat {
    if shards == [] then 0 else TotalUnknown(shards[..|shards| - 1]) + CountUnknown(shards[|shards| - 1].lines)
  }

  // ---------- lines against events ----------

  lemma {:induction false} EventsInAppend(lines: seq<Line>, line: Line)
    ensures EventsIn(lines + [line]) == if line.Parsed? then EventsIn(lines) + [line.record] else EventsIn(lines)
  {
    if lines == [] {
      assert [line][1..] == [];
    } else {
      var head, rest := if lines[0].Parsed? then [lines[0].record] else [], EventsIn(lines[1..]);
      assert (lines + [line])[1..] == lines[1..] + [line];
      EventsInAppend(lines[1..], line);
      assert EventsIn(lines + [line]) == head + EventsIn(lines[1..] + [line]);
      assert line.Parsed? ==> head + (rest + [line.record]) == (head + rest) + [line.record];
    }
  }

  lemma {:induction false} LastEventIsLast(lines: seq<Line>)
    ensures LastEvent(lines) == None <==> EventsIn(lines) == []
    ensures LastEvent(lines).Some? ==> EventsIn(lines)[|EventsIn(lines)| - 1] == LastEvent(lines).value
  {
    if lines != [] {
      var init, last := lines[..|lines| - 1], lines[|lines| - 1];
      assert lines == init + [last];
      EventsInAppend(init, last);
      LastEventIsLast(init);
    }
  }

  lemma RegressionsAppend(events: seq<Record>, r: Record)
    ensures Regressions(events + [r])
            == Regressions(events) + (if events != [] && r.event.ts < events[|events| - 1].event.ts then 1 else 0)
  {
    assert (events + [r])[..|events|] == events;
  }

  lemma NoLines()
    ensures EventsIn([]) == [] && Regressions(EventsIn([])) == 0
  {
  }

  /** A shard's gaps are as many as the regressions of its event sequence. */
  lemma {:induction false} GapsAreRegressions(shard: Shard, n: nat)
    requires n <= |shard.lines|
    ensures |GapsUpTo(shard, n)| == Regressions(EventsIn(shard.lines[..n]))
  {
    hide Regressions, EventsIn, LastEvent;
    if n == 0 {
      NoLines();
    } else {
      var init, line := shard.lines[..n - 1], shard.lines[n - 1];
      assert shard.lines[..n] == init + [line];
      GapsAreRegressions(shard, n - 1);
      EventsInAppend(init, line);
      LastEventIsLast(init);
      if line.Parsed? { RegressionsAppend(EventsIn(init), line.record); }
    }
  }

  lemma {:induction false} GapCount(shards: seq<Shard>)
    ensures |AllGaps(shards)| == TotalRegressions(shards)
  {
    if shards != [] {
      var last := shards[|shards| - 1];
      GapCount(shards[..|shards| - 1]);
      GapsAreRegressions(last, |last.lines|);
      assert last.lines[..|last.lines|] == last.lines;
    }
  }

  /** Every gap names a regressing line, and every regressing line is named. */
  lemma {:induction false} GapsAreExact(shard: Shard, n: nat)
    requires n <= |shard.lines|
    ensures forall g :: g in GapsUpTo(shard, n)
                        <==> exists k :: 0 <= k < n && Regresses(shard.lines, k) && g == GapAt(shard, k)
  {
    if n > 0 { GapsAreExact(shard, n - 1); }
  }

  /** Line `k` holds an event earlier than that of line `j`, the last line with an event before it. */
  ghost predicate EarlierThan(lines: seq<Line>, j: nat, k: nat) {
    && j < k < |lines| && lines[j].Parsed? && lines[k].Parsed?
    && lines[k].record.event.ts < lines[j].record.event.ts
    && forall m :: j < m < k ==> !lines[m].Parsed?
  }

  lemma {:induction false} LastEventAt(lines: seq<Line>, k: nat)
    requires k <= |lines|
    ensures forall j: nat :: j < k && lines[j].Parsed? && (forall m :: j < m < k ==> !lines[m].Parsed?) ==>
              LastEvent(lines[..k]) == Some(lines[j].record)
    ensures LastEvent(lines[..k]).Some? ==>
              exists j: nat :: j < k && lines[j].Parsed? && forall m :: j < m < k ==> !lines[m].Parsed?
  {
    if k > 0 {
      LastEventAt(lines, k - 1);
      assert lines[..k][..k - 1] == lines[..k - 1];
      if lines[k - 1].Parsed? {
      } else if LastEvent(lines[..k - 1]).Some? {
        var j: nat :| j < k - 1 && lines[j].Parsed? && forall m :: j < m < k - 1 ==> !lines[m].Parsed?;
      }
    }
  }

  lemma RegressesIff(lines: seq<Line>, k: nat)
    requires k < |lines|
    ensures Regresses(lines, k) <==> exists j: nat :: EarlierThan(lines, j, k)
  {
    LastEventAt(lines, k);
    if Regresses(lines, k) {
      var j: nat :| j < k && lines[j].Parsed? && forall m :: j < m < k ==> !lines[m].Parsed?;
      assert EarlierThan(lines, j, k);
    }
  }

  /** A gap names asset and file, the number of the line counted from 1, and the two times. */
  lemma GapsNameLines(shard: Shard, g: Gap)
    ensures g in GapsUpTo(shard, |shard.lines|)
            <==> exists j: nat, k: nat ::
                   && EarlierThan(shard.lines, j, k)
                   && g == Gap(shard.assetId, shard.path, k + 1, shard.lines[j].record.event.ts,
                               shard.lines[k].record.event.ts)
  {
    GapsAreExact(shard, |shard.lines|);
    if g in GapsUpTo(shard, |shard.lines|) {
      var k: nat :| k < |shard.lines| && Regresses(shard.lines, k) && g == GapAt(shard, k);
      RegressesIff(shard.lines, k);
      LastEventAt(shard.lines, k);
      var j: nat :| EarlierThan(shard.lines, j, k);
    }
    if j: nat, k: nat :| && EarlierThan(shard.lines, j, k)
                         && g == Gap(shard.assetId, shard.path, k + 1, shard.lines[j].record.event.ts,
                                     shard.lines[k].record.event.ts)
    {
      RegressesIff(shard.lines, k);
      LastEventAt(shard.lines, k);
      assert g == GapAt(shard, k);
    }
  }

  ghost function BadLines(lines: seq<Line>): set<int> {
    set i | 0 <= i < |lines| && (lines[i].Undecodable? || lines[i].Invalid?)
  }

  ghost function UnknownLines(lines: seq<Line>): set<int> {
    set i | 0 <= i < |lines| && lines[i].UnknownType?
  }

  ghost function EventLines(lines: seq<Line>): set<int> {
    set i | 0 <= i < |lines| && lines[i].Parsed?
  }

  /** The counters count lines: those with an event, the bad ones, and those of unknown type. */
  lemma {:induction false} LinesCounted(lines: seq<Line>)
    ensures |EventsIn(lines)| == |EventLines(lines)|
    ensures CountBad(lines) == |BadLines(lines)| && CountUnknown(lines) == |UnknownLines(lines)|
  {
    hide EventsIn, EventLines, BadLines, UnknownLines;
    if lines == [] {
      NothingToCount();
    } else {
      var n, init, last := |lines| - 1, lines[..|lines| - 1], lines[|lines| - 1];
      LinesCounted(init);
      assert init + [last] == lines;
      EventsInAppend(init, last);
      OneMoreLine(lines, n);
    }
  }

  lemma NothingToCount()
    ensures |EventsIn([])| == |EventLines([])| == |BadLines([])| == |UnknownLines([])| == 0
  {
  }

  lemma OneMoreLine(lines: seq<Line>, n: nat)
    requires |lines| == n + 1
    ensures |EventLines(lines)| == |EventLines(lines[..n])| + (if lines[n].Parsed? then 1 else 0)
    ensures |BadLines(lines)| == |BadLines(lines[..n])| + (if IsBad(lines[n]) then 1 else 0)
    ensures |UnknownLines(lines)| == |UnknownLines(lines[..n])| + (if lines[n].UnknownType? then 1 else 0)
  {
    OneMoreEventLine(lines, n);
    OneMoreBadLine(lines, n);
    OneMoreUnknownLine(lines, n);
    hide EventLines, BadLines, UnknownLines;
  }

  lemma OneMoreEventLine(lines: seq<Line>, n: nat)
    requires |lines| == n + 1
    ensures EventLines(lines) == EventLines(lines[..n]) + (if lines[n].Parsed? then {n} else {})
    ensures n !in EventLines(lines[..n])
  {
  }

  lemma OneMoreBadLine(lines: seq<Line>, n: nat)
    requires |lines| == n + 1
    ensures BadLines(lines) == BadLines(lines[..n]) + (if IsBad(lines[n]) then {n} else {})
    ensures n !in BadLines(lines[..n])
  {
  }

  lemma OneMoreUnknownLine(lines: seq<Line>, n: nat)
    requires |lines| == n + 1
    ensures UnknownLines(lines) == UnknownLines(lines[..n]) + (if lines[n].UnknownType? then {n} else {})
    ensures n !in UnknownLines(lines[..n])
  {
  }

  // ---------- the scan ----------

  function Plus(a: Report, b: Report): Report {
    Report(a.nEvents + b.nEvents, a.nParseErrors + b.nParseErrors, a.nUnknown + b.nUnknown,
           a.nOutOfOrder + b.nOutOfOrder, a.gaps + b.gaps)
  }

  function ShardReport(shard: Shard, n: nat): Report
    requires n <= |shard.lines|
  {
    var read := shard.lines[..n];
    Report(|EventsIn(read)|, CountBad(read), CountUnknown(read), Regressions(EventsIn(read)), GapsUpTo(shard, n))
  }

  lemma ReadOneMore(shard: Shard, n: nat)
    requires n < |shard.lines|
    ensures var line, now, next := shard.lines[n], ShardReport(shard, n), ShardReport(shard, n + 1);
            && next.nEvents == now.nEvents + (if line.Parsed? then 1 else 0)
            && next.nParseErrors == now.nParseErrors + (if IsBad(line) then 1 else 0)
            && next.nUnknown == now.nUnknown + (if line.UnknownType? then 1 else 0)
            && next.nOutOfOrder == now.nOutOfOrder + (if Regresses(shard.lines, n) then 1 else 0)
    ensures LastEvent(shard.lines[..n + 1])
            == if shard.lines[n].Parsed? then Some(shard.lines[n].record) else LastEvent(shard.lines[..n])
  {
    assert shard.lines[..n + 1] == shard.lines[..n] + [shard.lines[n]];
    assert shard.lines[..n + 1][..n] == shard.lines[..n];
    EventsInAppend(shard.lines[..n], shard.lines[n]);
    GapsAreRegressions(shard, n);
    GapsAreRegressions(shard, n + 1);
  }

  /** Scanning one shard adds its report to what was found before. */
  method ScanShard(shard: Shard, before: Report) returns (report: Report)
    ensures report == Plus(before, ShardReport(shard, |shard.lines|))
    ensures |GapsUpTo(shard, |shard.lines|)| == ShardReport(shard, |shard.lines|).nOutOfOrder
  {
    report := before;
    var previous: Option<Millis> := None;
    for n := 0 to |shard.lines|
      invariant report == Plus(before, ShardReport(shard, n))
      invariant previous == match LastEvent(shard.lines[..n]) case None => None case Some(r) => Some(r.event.ts)
    {
      hide ShardReport;
      ReadOneMore(shard, n);
      match shard.lines[n]
      case Blank =>
      case Undecodable => report := report.(nParseErrors := report.nParseErrors + 1);
      case Invalid => report := report.(nParseErrors := report.nParseErrors + 1);
      case UnknownType => report := report.(nUnknown := report.nUnknown + 1);
      case Parsed(record) =>
        report := report.(nEvents := report.nEvents + 1);
        if previous.Some? && record.event.ts < previous.value {
          report := report.(nOutOfOrder := report.nOutOfOrder + 1);
          report := report.(gaps := report.gaps
                            + [Gap(shard.assetId, shard.path, n + 1, previous.value, record.event.ts)]);
        }
        previous := Some(record.event.ts);
    }
    GapsAreRegressions(shard, |shard.lines|);
  }

  /**
   The scan of every shard. `nOutOfOrder` is the number that decides whether the merge is sorted
   (`Replay.Merge`), and `nEvents` is the length of the merge.
   */
  method VerifyNoGaps(shards: seq<Shard>) returns (report: Report)
    ensures report.nEvents == TotalEvents(shards)
    ensures report.nOutOfOrder == TotalRegressions(shards) == |report.gaps|
    ensures report.nParseErrors == TotalBad(shards) && report.nUnknown == TotalUnknown(shards)
    ensures report.gaps == AllGaps(shards)
  {
    report := Report(0, 0, 0, 0, []);
    for s := 0 to |shards|
      invariant report.nEvents == TotalEvents(shards[..s]) && report.nOutOfOrder == TotalRegressions(shards[..s])
      invariant report.nParseErrors == TotalBad(shards[..s]) && report.nUnknown == TotalUnknown(shards[..s])
      invariant report.gaps == AllGaps(shards[..s])
    {
      report := ScanShard(shards[s], report);
      assert shards[..s + 1][..s] == shards[..s];
      assert shards[s].lines[..|shards[s].lines|] == shards[s].lines;
    }
    assert shards[..|shards|] == shards;
    GapCount(shards);
  }

  /** Merging and scanning the same shards: the scan's verdict is the merge's sortedness. */
  method ReplayAndVerify(shards: seq<Shard>) returns (out: seq<Record>, report: Report)
    ensures |out| == report.nEvents
    ensures report.nOutOfOrder == 0 <==> InOrder(out)
    ensures report.nOutOfOrder == 0
            <==> forall s, k :: 0 <= s < |shards| && 0 <= k < |shards[s].lines| ==> !Regresses(shards[s].lines, k)
  {
    ghost var source;
    out, source := Merge(shards);
    report := VerifyNoGaps(shards);
    NoGapNoRegression(shards);
  }

  lemma {:induction false} NoGapNoRegression(shards: seq<Shard>)
    ensures TotalRegressions(shards) == 0
            <==> forall s, k :: 0 <= s < |shards| && 0 <= k < |shards[s].lines| ==> !Regresses(shards[s].lines, k)
  {
    if shards != [] {
      var init, last := shards[..|shards| - 1], shards[|shards| - 1];
      NoGapNoRegression(init);
      GapsAreRegressions(last, |last.lines|);
      assert last.lines[..|last.lines|] == last.lines;
      NoGapsMeans(last, |last.lines|);
      assert forall s :: 0 <= s < |init| ==> init[s] == shards[s];
    }
  }

  lemma {:induction false} NoGapsMeans(shard: Shard, n: nat)
    requires n <= |shard.lines|
    ensures GapsUpTo(shard, n) == [] <==> forall k :: 0 <= k < n ==> !Regresses(shard.lines, k)
  {
    if n > 0 { NoGapsMeans(shard, n - 1); }
  }
}
