/**
 Order flow imbalance over a rolling time window: a running sum kept up to date by adding each new
 observation and evicting from the front of a queue.
 */
module Ofi {
  import opened Prelude

  /** A best-bid-and-offer observation. */
  datatype Quote = Quote(ts: real, bidPx: real, bidSz: real, askPx: real, askSz: real)

  /** Buying pressure between two successive observations. */
  function BidFlow(prev: Quote, now: Quote): real {
    if now.bidPx > prev.bidPx then now.bidSz
    else if now.bidPx < prev.bidPx then -prev.bidSz
    else now.bidSz - prev.bidSz
  }

  function AskFlow(prev: Quote, now: Quote): real {
    if now.askPx < prev.askPx then -now.askSz
    else if now.askPx > prev.askPx then prev.askSz
    else -(now.askSz - prev.askSz)
  }

  function Flow(prev: Quote, now: Quote): real {
    BidFlow(prev, now) + AskFlow(prev, now)
  }

  /** The same market seen from the other side: prices negated, bid and ask exchanged. */
  function Mirrored(q: Quote): Quote {
    Quote(q.ts, -q.askPx, q.askSz, -q.bidPx, q.bidSz)
  }

  /** Pressure is antisymmetric: the mirrored market has the opposite flow. */
  lemma FlowAntisymmetric(prev: Quote, now: Quote)
    ensures Flow(Mirrored(prev), Mirrored(now)) == -Flow(prev, now)
  {
  }

  /** The flow with indicators, as Cont, Kukanov and Stoikov define it. */
  lemma FlowWithIndicators(prev: Quote, now: Quote)
    ensures Flow(prev, now)
            == (if now.bidPx >= prev.bidPx then now.bidSz else 0.0) - (if now.bidPx <= prev.bidPx then prev.bidSz
                else 0.0)
               - (if now.askPx <= prev.askPx then now.askSz else 0.0)
               + (if now.askPx >= prev.askPx then prev.askSz else 0.0)
  {
  }

  /** While the best prices stay, the flows add up to what the bid gained less what the ask gained. */
  lemma {:induction false} QuietFlowsTelescope(history: seq<Quote>)
    requires history != []
    requires forall i :: 0 <= i < |history| ==>
               history[i].bidPx == history[0].bidPx && history[i].askPx == history[0].askPx
    ensures var first, last := history[0], history[|history| - 1];
            Sum(EventsOf(history)) == (last.bidSz - first.bidSz) - (last.askSz - first.askSz)
  {
    hide Flow, Sum;
    var n := |history| - 1;
    if n == 0 {
      NoFlowYet(history);
    } else {
      var init := history[..n];
      QuietFlowsTelescope(init);
      QuietFlow(history[n - 1], history[n]);
      SumNext(EventsOf(init), Event(history[n].ts, Flow(history[n - 1], history[n])));
    }
  }

  lemma QuietFlow(prev: Quote, now: Quote)
    requires now.bidPx == prev.bidPx && now.askPx == prev.askPx
    ensures Flow(prev, now) == (now.bidSz - prev.bidSz) - (now.askSz - prev.askSz)
  {
  }

  lemma NoFlowYet(history: seq<Quote>)
    requires |history| <= 1
    ensures Sum(EventsOf(history)) == 0.0
  {
  }

  /** The flow of every observation but the first inside `[from, ...]`, added up from scratch. */
  function WindowSum(history: seq<Quote>, from: real): real {
    if |history| <= 1 then 0.0
    else WindowSum(history[..|history| - 1], from)
         + (if history[|history| - 1].ts >= from then Flow(history[|history| - 2], history[|history| - 1]) else 0.0)
  }

  ghost predicate InTime(history: seq<Quote>) {
    forall i, j :: 0 <= i < j < |history| ==> history[i].ts <= history[j].ts
  }

  // ---------- the queue ----------

  datatype Event = Event(ts: real, e: real)

  function Sum(events: seq<Event>): real {
    if events == [] then 0.0 else Sum(events[..|events| - 1]) + events[|events| - 1].e
  }

  /** Eviction: the longest prefix older than the cutoff is dropped. */
  function Evicted(events: seq<Event>, cutoff: real): seq<Event> {
    if events != [] && events[0].ts < cutoff then Evicted(events[1..], cutoff) else events
  }

  lemma {:induction false} SumFirst(events: seq<Event>)
    requires events != []
    ensures Sum(events) == events[0].e + Sum(events[1..])
  {
    if |events| > 1 {
      var init := events[..|events| - 1];
      SumFirst(init);
      assert events[1..][..|events| - 2] == init[1..];
    }
  }

  /** The events of a history: one flow for every observation but the first. */
  function EventsOf(history: seq<Quote>): (r: seq<Event>)
    ensures |r| == if history == [] then 0 else |history| - 1
  {
    if |history| <= 1 then []
    else EventsOf(history[..|history| - 1])
         + [Event(history[|history| - 1].ts, Flow(history[|history| - 2], history[|history| - 1]))]
  }

  /** What the window admits, in order. */
  function Within(events: seq<Event>, from: real): seq<Event> {
    if events == [] then []
    else if events[|events| - 1].ts >= from then Within(events[..|events| - 1], from) + [events[|events| - 1]]
    else Within(events[..|events| - 1], from)
  }

  lemma {:induction false} WithinFirst(events: seq<Event>, from: real)
    requires events != []
    ensures Within(events, from)
            == (if events[0].ts >= from then [events[0]] else []) + Within(events[1..], from)
  {
    var init, last := events[..|events| - 1], events[|events| - 1];
    if |events| > 1 {
      WithinFirst(init, from);
      assert events[1..][..|events| - 2] == init[1..];
    }
  }

  lemma {:induction false} WithinAll(events: seq<Event>, from: real)
    requires forall i :: 0 <= i < |events| ==> events[i].ts >= from
    ensures Within(events, from) == events
  {
    if events != [] {
      WithinAll(events[..|events| - 1], from);
      assert events[..|events| - 1] + [events[|events| - 1]] == events;
    }
  }

  /** No event inside the window waits in front of a stale one. */
  ghost predicate StaleInFront(events: seq<Event>, cutoff: real) {
    forall i, j :: 0 <= i < j < |events| && events[j].ts < cutoff ==> events[i].ts < cutoff
  }

  lemma {:induction false} WithinIsFresh(events: seq<Event>, from: real)
    ensures forall e :: e in Within(events, from) ==> e.ts >= from
  {
    if events != [] { WithinIsFresh(events[..|events| - 1], from); }
  }

  /** Whatever the times, eviction keeps exactly the window if and only if all that is stale is in front. */
  lemma {:induction false} EvictionExactIff(events: seq<Event>, cutoff: real)
    ensures Evicted(events, cutoff) == Within(events, cutoff) <==> StaleInFront(events, cutoff)
    decreases |events|
  {
    if events != [] {
      var rest := events[1..];
      if events[0].ts < cutoff {
        WithinFirst(events, cutoff);
        EvictionExactIff(rest, cutoff);
        assert StaleInFront(events, cutoff) ==> StaleInFront(rest, cutoff) by {
          assert forall i :: 0 <= i < |rest| ==> rest[i] == events[i + 1];
        }
        assert StaleInFront(rest, cutoff) ==> StaleInFront(events, cutoff) by {
          assert forall i :: 0 < i < |events| ==> events[i] == rest[i - 1];
        }
      } else {
        if StaleInFront(events, cutoff) { WithinAll(events, cutoff); }
        if Within(events, cutoff) == events {
          WithinIsFresh(events, cutoff);
          assert forall j :: 0 <= j < |events| ==> events[j] in events;
        }
      }
    }
  }

  lemma WithinNext(events: seq<Event>, e: Event, from: real)
    ensures Within(events + [e], from) == if e.ts >= from then Within(events, from) + [e] else Within(events, from)
  {
    assert (events + [e])[..|events|] == events;
  }

  lemma {:induction false} SumWithin(history: seq<Quote>, from: real)
    ensures Sum(Within(EventsOf(history), from)) == WindowSum(history, from)
  {
    if |history| > 1 {
      var init := history[..|history| - 1];
      var e := Event(history[|history| - 1].ts, Flow(history[|history| - 2], history[|history| - 1]));
      SumWithin(init, from);
      WithinNext(EventsOf(init), e, from);
      if e.ts >= from { SumNext(Within(EventsOf(init), from), e); }
    }
  }

  lemma SumNext(events: seq<Event>, e: Event)
    ensures Sum(events + [e]) == Sum(events) + e.e
  {
    assert (events + [e])[..|events|] == events;
  }

  // ---------- the queue after a history ----------

  /** The queue after these observations: each update appends its event and evicts from the front. */
  function Kept(history: seq<Quote>, window: real): seq<Event> {
    if |history| <= 1 then []
    else
      var q := history[|history| - 1];
      Evicted(Kept(history[..|history| - 1], window) + [Event(q.ts, Flow(history[|history| - 2], q))], q.ts - window)
  }

  lemma {:induction false} EvictedIsSuffix(events: seq<Event>, cutoff: real)
    ensures |Evicted(events, cutoff)| <= |events|
            && Evicted(events, cutoff) == events[|events| - |Evicted(events, cutoff)|..]
    ensures forall i :: 0 <= i < |events| - |Evicted(events, cutoff)| ==> events[i].ts < cutoff
  {
    if events != [] && events[0].ts < cutoff { EvictedIsSuffix(events[1..], cutoff); }
  }

  lemma SuffixNext(all: seq<Event>, kept: seq<Event>, e: Event, rest: seq<Event>)
    requires |kept| <= |all| && kept == all[|all| - |kept|..]
    requires |rest| <= |kept| + 1 && rest == (kept + [e])[|kept| + 1 - |rest|..]
    ensures |rest| <= |all| + 1 && rest == (all + [e])[|all| + 1 - |rest|..]
  {
    assert kept + [e] == (all + [e])[|all| - |kept|..];
  }

  /** The queue is always the last few of the events there have been. */
  lemma {:induction false} KeptIsSuffix(history: seq<Quote>, window: real)
    ensures var all, kept := EventsOf(history), Kept(history, window);
            |kept| <= |all| && kept == all[|all| - |kept|..]
  {
    hide Evicted, Flow;
    if |history| > 1 {
      var init, q := history[..|history| - 1], history[|history| - 1];
      var e := Event(q.ts, Flow(history[|history| - 2], q));
      KeptIsSuffix(init, window);
      EvictedIsSuffix(Kept(init, window) + [e], q.ts - window);
      SuffixNext(EventsOf(init), Kept(init, window), e, Kept(history, window));
    }
  }

  /** How many events have been evicted. */
  ghost function Gone(history: seq<Quote>, window: real): nat {
    KeptIsSuffix(history, window);
    |EventsOf(history)| - |Kept(history, window)|
  }

  lemma {:induction false} EventTimes(history: seq<Quote>, i: nat)
    requires i + 1 < |history|
    ensures EventsOf(history)[i].ts == history[i + 1].ts
  {
    if i + 2 < |history| { EventTimes(history[..|history| - 1], i); }
  }

  lemma {:induction false} WithinConcat(a: seq<Event>, b: seq<Event>, from: real)
    ensures Within(a + b, from) == Within(a, from) + Within(b, from)
  {
    if b == [] {
      assert a + b == a;
    } else {
      var init, last := b[..|b| - 1], b[|b| - 1];
      WithinConcat(a, init, from);
      assert a + b == (a + init) + [last];
      WithinNext(a + init, last, from);
    }
  }

  lemma {:induction false} WithinNone(events: seq<Event>, from: real)
    ensures Within(events, from) == [] <==> forall i :: 0 <= i < |events| ==> events[i].ts < from
  {
    if events != [] { WithinNone(events[..|events| - 1], from); }
  }

  /**
   Eviction from a queue behind events already gone gives the window iff those are stale and no stale one is
   shielded.
   */
  lemma EvictionBehindGone(gone: seq<Event>, events: seq<Event>, cutoff: real)
    ensures Evicted(events, cutoff) == Within(gone + events, cutoff)
            <==> (forall i :: 0 <= i < |gone| ==> gone[i].ts < cutoff) && StaleInFront(events, cutoff)
  {
    hide Within, Evicted, StaleInFront;
    WithinConcat(gone, events, cutoff);
    WithinNone(gone, cutoff);
    EvictionExactIff(events, cutoff);
    if Evicted(events, cutoff) == Within(gone + events, cutoff) {
      WithinIsFresh(gone + events, cutoff);
      FreshIsWithin(events, cutoff);
      assert |Within(gone, cutoff)| == 0;
    }
  }

  /** What eviction leaves is what the window admits, if nothing stale is left. */
  lemma FreshIsWithin(events: seq<Event>, cutoff: real)
    requires forall e :: e in Evicted(events, cutoff) ==> e.ts >= cutoff
    ensures Within(events, cutoff) == Evicted(events, cutoff)
  {
    hide Within, Evicted;
    var kept := Evicted(events, cutoff);
    EvictedIsSuffix(events, cutoff);
    var k := |events| - |kept|;
    assert events == events[..k] + kept;
    WithinConcat(events[..k], kept, cutoff);
    WithinNone(events[..k], cutoff);
    assert forall i :: 0 <= i < |kept| ==> kept[i] in kept;
    WithinAll(kept, cutoff);
    assert [] + kept == kept;
  }

  /**
   One update, whatever the times: the queue is exactly the window if and only if every event evicted
   before is still stale and no stale one waits behind a fresh one.
   */
  lemma QueueIsWindowIff(history: seq<Quote>, window: real)
    requires |history| > 1
    ensures var init, q := history[..|history| - 1], history[|history| - 1];
            var e := Event(q.ts, Flow(history[|history| - 2], q));
            Kept(history, window) == Within(EventsOf(history), q.ts - window)
            <==> (forall i :: 0 <= i < Gone(init, window) ==> EventsOf(init)[i].ts < q.ts - window)
                 && StaleInFront(Kept(init, window) + [e], q.ts - window)
  {
    hide Evicted, Within, Flow, StaleInFront;
    var init, q := history[..|history| - 1], history[|history| - 1];
    var e, past := Event(q.ts, Flow(history[|history| - 2], q)), EventsOf(init);
    KeptIsSuffix(init, window);
    var gone := past[..Gone(init, window)];
    assert past + [e] == gone + (Kept(init, window) + [e]);
    EvictionBehindGone(gone, Kept(init, window) + [e], q.ts - window);
    assert forall i :: 0 <= i < |gone| ==> gone[i] == past[i];
  }

  /** Once observation `k` is in, whatever it has made stale has only stale observations before it. */
  ghost predicate FrontFirst(history: seq<Quote>, window: real, k: nat)
    requires k < |history|
  {
    forall i, j :: 1 <= i < j <= k && history[j].ts < history[k].ts - window ==> history[i].ts < history[k].ts - window
  }

  /** Whatever is stale once observation `k` is in is stale when `l` is. */
  ghost predicate StaysOut(history: seq<Quote>, window: real, k: nat, l: nat)
    requires k < |history| && l < |history|
  {
    forall i :: 1 <= i <= k && history[i].ts < history[k].ts - window ==> history[i].ts < history[l].ts - window
  }

  /** Staleness comes from the front and does not end; a condition on the times alone. */
  ghost predicate Orderly(history: seq<Quote>, window: real) {
    && (forall k :: 1 <= k < |history| ==> FrontFirst(history, window, k))
    && (forall k, l :: 1 <= k < l < |history| ==> StaysOut(history, window, k, l))
  }

  ghost predicate Exact(history: seq<Quote>, window: real) {
    history != [] ==> Kept(history, window) == Within(EventsOf(history), history[|history| - 1].ts - window)
  }

  lemma GoneAndKept(history: seq<Quote>, window: real)
    ensures Gone(history, window) + |Kept(history, window)| == |EventsOf(history)|
    ensures Kept(history, window) == EventsOf(history)[Gone(history, window)..]
  {
    KeptIsSuffix(history, window);
  }

  /** When the queue is the window, what is gone is exactly what is out of the window. */
  lemma GoneIsStale(history: seq<Quote>, window: real)
    requires history != [] && Exact(history, window)
    ensures var from := history[|history| - 1].ts - window;
            forall i :: 1 <= i < |history| ==> (i <= Gone(history, window) <==> history[i].ts < from)
  {
    hide Within, Kept, EventsOf, Gone;
    var all, kept, from := EventsOf(history), Kept(history, window), history[|history| - 1].ts - window;
    GoneAndKept(history, window);
    var gone := all[..Gone(history, window)];
    assert all == gone + kept;
    GoneSplits(gone, kept, from);
    forall i | 1 <= i < |history| ensures i <= Gone(history, window) <==> history[i].ts < from {
      EventTimes(history, i - 1);
      if i <= |gone| { assert gone[i - 1] == all[i - 1]; } else { assert kept[i - 1 - |gone|] == all[i - 1]; }
    }
  }

  /** When all that was kept is all that the window admits, the window splits the events in two. */
  lemma GoneSplits(gone: seq<Event>, kept: seq<Event>, from: real)
    requires kept == Within(gone + kept, from)
    ensures forall i :: 0 <= i < |gone| ==> gone[i].ts < from
    ensures forall i :: 0 <= i < |kept| ==> kept[i].ts >= from
  {
    hide Within;
    WithinIsFresh(gone + kept, from);
    assert forall i :: 0 <= i < |kept| ==> kept[i] in kept;
    WithinAll(kept, from);
    WithinConcat(gone, kept, from);
    WithinNone(gone, from);
    assert |Within(gone, from)| == 0;
  }

  /** The part of `Orderly` that the last observation adds. */
  ghost predicate LastOrderly(history: seq<Quote>, window: real)
    requires |history| > 1
  {
    FrontFirst(history, window, |history| - 1) && StaysOut(history, window, |history| - 2, |history| - 1)
  }

  lemma PrefixOrderly(history: seq<Quote>, window: real, k: nat, l: nat)
    requires k < |history| - 1 && l < |history| - 1
    ensures FrontFirst(history[..|history| - 1], window, k) == FrontFirst(history, window, k)
    ensures StaysOut(history[..|history| - 1], window, k, l) == StaysOut(history, window, k, l)
  {
    var init := history[..|history| - 1];
    assert forall i :: 0 <= i < |init| ==> init[i] == history[i];
  }

  lemma StaysOutOn(history: seq<Quote>, window: real, k: nat, l: nat, m: nat)
    requires k <= l < |history| && m < |history| && StaysOut(history, window, k, l) && StaysOut(history, window, l, m)
    ensures StaysOut(history, window, k, m)
  {
  }

  lemma OrderlyNext(history: seq<Quote>, window: real)
    requires |history| > 1 && window > 0.0
    ensures Orderly(history, window) <==> Orderly(history[..|history| - 1], window) && LastOrderly(history, window)
  {
    var init, last := history[..|history| - 1], |history| - 1;
    assert StaysOut(history, window, 0, 1);
    hide FrontFirst, StaysOut;
    forall k: nat, l: nat | k < last && l < last
      ensures FrontFirst(init, window, k) == FrontFirst(history, window, k)
      ensures StaysOut(init, window, k, l) == StaysOut(history, window, k, l)
    {
      PrefixOrderly(history, window, k, l);
    }
    if Orderly(init, window) && LastOrderly(history, window) {
      forall k, l | 1 <= k < l <= last ensures StaysOut(history, window, k, l) {
        if l < last {
          assert StaysOut(init, window, k, l);
        } else if k < last - 1 {
          assert StaysOut(init, window, k, last - 1);
          StaysOutOn(history, window, k, last - 1, last);
        }
      }
      forall k | 1 <= k <= last ensures FrontFirst(history, window, k) {
        if k < last { assert FrontFirst(init, window, k); }
      }
    }
    if Orderly(history, window) {
      forall k | 1 <= k < last ensures FrontFirst(init, window, k) { assert FrontFirst(history, window, k); }
      forall k, l | 1 <= k < l < last ensures StaysOut(init, window, k, l) { assert StaysOut(history, window, k, l); }
    }
  }

  lemma ExactNext(history: seq<Quote>, window: real)
    requires |history| > 1 && window > 0.0 && Exact(history[..|history| - 1], window)
    ensures Exact(history, window) <==> LastOrderly(history, window)
  {
    hide Kept, Within, Flow, Exact, LastOrderly, StaleInFront, Gone;
    var init, q := history[..|history| - 1], history[|history| - 1];
    var e, past := Event(q.ts, Flow(history[|history| - 2], q)), EventsOf(init);
    var gone, waiting, cutoff := Gone(init, window), Kept(init, window) + [e], q.ts - window;
    ExactMeans(history, window);
    QueueIsWindowIff(history, window);
    GoneIsStale(init, window);
    GoneAndKept(init, window);
    forall i | 1 <= i < |history| ensures (past + [e])[i - 1].ts == history[i].ts { EventTimes(history, i - 1); }
    forall i | 1 <= i <= gone ensures past[i - 1].ts == history[i].ts { assert (past + [e])[i - 1] == past[i - 1]; }
    forall i | 0 <= i < |waiting| ensures waiting[i].ts == history[gone + i + 1].ts {
      assert waiting[i] == (past + [e])[gone + i];
    }
    LastOrderlyIff(history, window, gone, waiting);
    assert (forall i :: 0 <= i < gone ==> past[i].ts < cutoff) ==>
        (forall i :: 1 <= i <= gone ==> history[i].ts < cutoff) by {
      if forall i :: 0 <= i < gone ==> past[i].ts < cutoff {
        forall i | 1 <= i <= gone ensures history[i].ts < cutoff { assert past[i - 1].ts < cutoff; }
      }
    }
    assert (forall i :: 1 <= i <= gone ==> history[i].ts < cutoff) ==>
        (forall i :: 0 <= i < gone ==> past[i].ts < cutoff) by {
      if forall i :: 1 <= i <= gone ==> history[i].ts < cutoff {
        forall i | 0 <= i < gone ensures past[i].ts < cutoff { assert past[i].ts == history[i + 1].ts; }
      }
    }
  }

  lemma ExactMeans(history: seq<Quote>, window: real)
    requires |history| > 1
    ensures Exact(history, window)
            <==> Kept(history, window) == Within(EventsOf(history), history[|history| - 1].ts - window)
  {
  }

  lemma LastOrderlyIff(history: seq<Quote>, window: real, gone: nat, waiting: seq<Event>)
    requires |history| > 1 && window > 0.0 && gone + |waiting| == |history| - 1 && waiting != []
    requires var before := history[|history| - 2].ts - window;
             forall i :: 1 <= i < |history| - 1 ==> (i <= gone <==> history[i].ts < before)
    requires forall i :: 0 <= i < |waiting| ==> waiting[i].ts == history[gone + i + 1].ts
    ensures var now := history[|history| - 1].ts - window;
            LastOrderly(history, window)
            <==> (forall i :: 1 <= i <= gone ==> history[i].ts < now) && StaleInFront(waiting, now)
  {
    var now := history[|history| - 1].ts - window;
    if LastOrderly(history, window) {
      forall i, j | 0 <= i < j < |waiting| && waiting[j].ts < now ensures waiting[i].ts < now {
        assert history[gone + j + 1].ts < now;
      }
    }
    if (forall i :: 1 <= i <= gone ==> history[i].ts < now) && StaleInFront(waiting, now) {
      forall i, j | 1 <= i < j < |history| && history[j].ts < now ensures history[i].ts < now {
        if i > gone {
          assert waiting[i - gone - 1].ts == history[i].ts && waiting[j - gone - 1].ts == history[j].ts;
        }
      }
    }
  }

  /**
   Whole histories, on the times alone: the queue is the window after every update if and only if
   the observations are orderly - a stale one has only stale ones before it, and stays stale.
   */
  lemma {:induction false} AlwaysExactIff(history: seq<Quote>, window: real)
    requires window > 0.0
    ensures (forall n :: 0 <= n <= |history| ==> Exact(history[..n], window)) <==> Orderly(history, window)
  {
    hide Exact, Orderly, LastOrderly;
    if |history| <= 1 {
      ShortIsExact(history, window);
    } else {
      var init := history[..|history| - 1];
      AlwaysExactIff(init, window);
      OrderlyNext(history, window);
      assert history[..|history|] == history;
      assert forall n :: 0 <= n <= |init| ==> init[..n] == history[..n];
      if Exact(init, window) { ExactNext(history, window); }
      assert init[..|init|] == init;
    }
  }

  lemma ShortIsExact(history: seq<Quote>, window: real)
    requires |history| <= 1
    ensures Orderly(history, window) && forall n :: 0 <= n <= |history| ==> Exact(history[..n], window)
  {
  }

  lemma InTimeIsOrderly(history: seq<Quote>, window: real)
    requires InTime(history) && window > 0.0
    ensures Orderly(history, window)
  {
  }

  // ---------- the code ----------

  class OFICalculator {
    const window: real
    var events: seq<Event>
    var runningSum: real
    var prev: Option<Quote>

    /** Every observation so far. */
    ghost var history: seq<Quote>

    ghost predicate Valid()
      reads this
    {
      && window > 0.0 && runningSum == Sum(events) && events == Kept(history, window)
      && (prev == None <==> history == [])
      && (prev.Some? ==> prev.value == history[|history| - 1])
    }

    constructor (window: real)
      requires window > 0.0
      ensures Valid() && history == [] && this.window == window
    {
      this.window, events, runningSum, prev, history := window, [], 0.0, None, [];
    }

    static method Create(window: real) returns (r: Option<OFICalculator>)
      ensures r.Some? <==> window > 0.0
      ensures r.Some? ==> fresh(r.value) && r.value.Valid() && r.value.history == [] && r.value.window == window
    {
      if window <= 0.0 { return None; }
      var o := new OFICalculator(window);
      return Some(o);
    }

    /**
     The value is the sum over the queue, and the from-scratch sum over exactly the observations in
     `[ts - window, ts]` whenever the history is orderly - as it is while time does not go back.
     */
    method Update(q: Quote) returns (r: real)
      requires Valid()
      modifies this
      ensures Valid() && history == old(history) + [q] && r == Sum(events)
      ensures Orderly(history, window) ==> r == WindowSum(history, q.ts - window)
      ensures InTime(history) ==> r == WindowSum(history, q.ts - window)
    {
      hide InTime, Sum, Evicted, Within, EventsOf, Orderly;
      history := history + [q];
      OrderlySum(history, window);
      if prev == None {
        NothingYet(history, window);
        prev := Some(q);
        return 0.0;
      }
      var bidFlow := if q.bidPx > prev.value.bidPx then q.bidSz
                     else if q.bidPx < prev.value.bidPx then -prev.value.bidSz
                     else q.bidSz - prev.value.bidSz;
      var askFlow := if q.askPx < prev.value.askPx then -q.askSz
                     else if q.askPx > prev.value.askPx then prev.value.askSz
                     else -(q.askSz - prev.value.askSz);
      var e := bidFlow + askFlow;
      SumNext(events, Event(q.ts, e));
      assert history[..|history| - 1] == old(history);
      events := events + [Event(q.ts, e)];
      runningSum := runningSum + e;
      Evict(q.ts);
      prev := Some(q);
      return runningSum;
    }

    /** The eviction loop. */
    method Evict(now: real)
      requires runningSum == Sum(events)
      modifies `events, `runningSum
      ensures events == Evicted(old(events), now - window) && runningSum == Sum(events)
    {
      var cutoff := now - window;
      while events != [] && events[0].ts < cutoff
        invariant runningSum == Sum(events)
        invariant Evicted(events, cutoff) == Evicted(old(events), cutoff)
        decreases |events|
      {
        SumFirst(events);
        runningSum := runningSum - events[0].e;
        events := events[1..];
      }
    }

    function Value(): real
      reads this
    {
      runningSum
    }
  }

  lemma NothingYet(history: seq<Quote>, window: real)
    requires |history| <= 1
    ensures Kept(history, window) == [] && Sum([]) == 0.0
  {
  }

  lemma OrderlySum(history: seq<Quote>, window: real)
    requires history != [] && window > 0.0
    ensures Orderly(history, window) || InTime(history) ==>
              Sum(Kept(history, window)) == WindowSum(history, history[|history| - 1].ts - window)
  {
    hide Sum, Kept, Within, WindowSum, Orderly, InTime, EventsOf;
    if InTime(history) { InTimeIsOrderly(history, window); }
    if Orderly(history, window) {
      AlwaysExactIff(history, window);
      assert Exact(history[..|history|], window) && history[..|history|] == history;
      SumWithin(history, history[|history| - 1].ts - window);
    }
  }

  const FIRST := Quote(0.0, 1.0, 1.0, 2.0, 1.0)
  const SECOND := Quote(10.0, 1.0, 2.0, 2.0, 1.0)
  const THIRD := Quote(5.0, 1.0, 5.0, 2.0, 1.0)
  const FOURTH := Quote(10.5, 1.0, 5.0, 2.0, 1.0)

  function Back(): seq<Quote> {
    [FIRST, SECOND, THIRD, FOURTH]
  }

  lemma NothingEvicted(events: seq<Event>, cutoff: real)
    requires events != [] && events[0].ts >= cutoff
    ensures Evicted(events, cutoff) == events
  {
  }

  lemma BackQueueIs()
    ensures Kept(Back(), 1.0) == [Event(10.0, 1.0), Event(5.0, 3.0), Event(10.5, 0.0)]
  {
    hide Evicted, Flow;
    var h, a, b, c := Back(), Event(10.0, 1.0), Event(5.0, 3.0), Event(10.5, 0.0);
    BackFlows();
    NothingEvicted([a], 9.0);
    NothingEvicted([a] + [b], 4.0);
    NothingEvicted([a] + [b] + [c], 9.5);
    assert h[..3][..2] == h[..2] && h[..2][..1] == h[..1];
    assert [] + [a] == [a];
    assert Kept(h[..1], 1.0) == [] && Kept(h[..2], 1.0) == [a];
    assert Kept(h[..3], 1.0) == [a] + [b];
    assert [a] + [b] + [c] == [a, b, c];
  }

  lemma StillPrices(prev: Quote, now: Quote)
    requires prev.bidPx == now.bidPx && prev.askPx == now.askPx
    ensures Flow(prev, now) == (now.bidSz - prev.bidSz) - (now.askSz - prev.askSz)
  {
  }

  lemma BackFlows()
    ensures Flow(FIRST, SECOND) == 1.0 && Flow(SECOND, THIRD) == 3.0 && Flow(THIRD, FOURTH) == 0.0
  {
    hide Flow;
    StillPrices(FIRST, SECOND);
    StillPrices(SECOND, THIRD);
    StillPrices(THIRD, FOURTH);
  }

  lemma BackSum()
    ensures Sum(Kept(Back(), 1.0)) == 4.0
  {
    hide Kept;
    var a, b, c := Event(10.0, 1.0), Event(5.0, 3.0), Event(10.5, 0.0);
    BackQueueIs();
    SumNext([], a);
    SumNext([a], b);
    SumNext([a, b], c);
    assert [] + [a] == [a] && [a] + [b] == [a, b] && [a, b] + [c] == [a, b, c];
  }

  lemma BackWindow()
    ensures WindowSum(Back(), Back()[3].ts - 1.0) == 1.0
  {
    var h := Back();
    assert h[..3][..2] == h[..2] && h[..2][..1] == h[..1];
    assert WindowSum(h[..1], 9.5) == 0.0;
    assert WindowSum(h[..2], 9.5) == 1.0;
    assert WindowSum(h[..3], 9.5) == 1.0;
    assert WindowSum(h, 9.5) == 1.0;
  }

  /** When time goes back, a newer front shields a stale event: the value is then not the window sum. */
  lemma TimeGoingBackKeepsStaleFlow()
    ensures !InTime(Back())
    ensures Sum(Kept(Back(), 1.0)) != WindowSum(Back(), Back()[3].ts - 1.0)
  {
    hide Sum, Kept, WindowSum;
    BackSum();
    BackWindow();
    assert Back()[1].ts > Back()[2].ts;
  }
}
