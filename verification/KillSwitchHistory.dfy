/**
 When the kill switch halts, said in terms of what it was told: the whole history of ticks,
 feed messages and heartbeat checks, without the running state.
 */
module KillSwitchHistory {
  import opened Prelude
  import opened KillSwitches

  datatype Event =
    | Tick(nowS: real, pnl: real, inventory: real)
    | WsMessage(nowS: real)
    | Heartbeat(nowS: real)

  function Told(limits: Limits, s: Switch, e: Event): Switch
    requires limits.Valid()
  {
    match e
    case Tick(nowS, pnl, inventory) => Ticked(limits, s, nowS, pnl, inventory)
    case WsMessage(nowS) => MessageNoted(s, nowS)
    case Heartbeat(nowS) => HeartbeatChecked(limits, s, nowS)
  }

  function After(limits: Limits, events: seq<Event>): Switch
    requires limits.Valid()
  {
    if events == [] then ARMED else Told(limits, After(limits, events[..|events| - 1]), events[|events| - 1])
  }

  // ---------- the history definition ----------

  /** `peak` is the largest PnL ticked among the first `n` events, or zero if that is larger. */
  ghost predicate IsPeak(events: seq<Event>, n: nat, peak: real)
    requires n <= |events|
  {
    && peak >= 0.0
    && (forall j :: 0 <= j < n && events[j].Tick? ==> events[j].pnl <= peak)
    && (peak == 0.0 || exists j :: 0 <= j < n && events[j].Tick? && events[j].pnl == peak)
  }

  /** The time, in seconds since the epoch, lies between midnight number `day` and the next one. */
  predicate OnDay(nowS: real, day: int) {
    86400.0 * day as real <= nowS < 86400.0 * (day + 1) as real
  }

  /** `first` opens the run of ticks between two midnights that tick `i` belongs to. */
  ghost predicate OpensDay(events: seq<Event>, first: nat, i: nat)
    requires i < |events|
  {
    exists day: int :: OpensRun(events, first, i, day)
  }

  ghost predicate OpensRun(events: seq<Event>, first: nat, i: nat, day: int)
    requires i < |events|
  {
    && first <= i && events[first].Tick? && events[i].Tick?
    && (forall j :: first <= j <= i && events[j].Tick? ==> OnDay(events[j].nowS, day))
    && (forall j :: LastTickBefore(events, first, j) ==> !OnDay(events[j].nowS, day))
  }

  ghost predicate LastTickBefore(events: seq<Event>, n: nat, j: int)
    requires n <= |events|
  {
    0 <= j < n && events[j].Tick? && forall k :: j < k < n ==> !events[k].Tick?
  }

  /** The last sign of life of the feed among the first `n` events. */
  ghost predicate LastSignBefore(events: seq<Event>, n: nat, j: int)
    requires n <= |events|
  {
    0 <= j < n && !events[j].Heartbeat? && forall k :: j < k < n ==> events[k].Heartbeat?
  }

  /** The drawdown rule at a tick, given the running peak. */
  predicate TooDeep(limits: Limits, peak: real, pnl: real) {
    peak - pnl > limits.maxDrawdownPct * Max(peak, limits.baselineCapital)
  }

  ghost predicate DrawdownAt(limits: Limits, events: seq<Event>, i: nat)
    requires i < |events|
  {
    events[i].Tick?
    && exists peak :: IsPeak(events, i + 1, peak)
         && TooDeep(limits, peak, events[i].pnl)
  }

  ghost predicate DailyLossAt(limits: Limits, events: seq<Event>, i: nat)
    requires i < |events|
  {
    limits.dailyLossLimit.Some?
    && exists first: nat ::
         OpensDay(events, first, i) && events[first].pnl - events[i].pnl > limits.dailyLossLimit.value
  }

  ghost predicate FrozenAt(limits: Limits, events: seq<Event>, i: nat)
    requires i < |events|
  {
    events[i].Heartbeat?
    && exists j :: LastSignBefore(events, i, j) && events[i].nowS - events[j].nowS > limits.heartbeatTimeoutS
  }

  ghost predicate TripsAt(limits: Limits, events: seq<Event>, i: nat)
    requires i < |events|
  {
    DrawdownAt(limits, events, i) || DailyLossAt(limits, events, i) || FrozenAt(limits, events, i)
  }

  ghost function ReasonAt(limits: Limits, events: seq<Event>, i: nat): HaltReason
    requires i < |events|
  {
    if DrawdownAt(limits, events, i) then MaxDrawdown
    else if DailyLossAt(limits, events, i) then DailyLoss
    else if FrozenAt(limits, events, i) then HeartbeatTimeout
    else Healthy
  }

  // ---------- the running state against the history ----------

  /** The day number the switch computes is that of the midnights around the time. */
  lemma UtcDayIs(nowS: real, day: int)
    ensures UtcDay(nowS) == day <==> OnDay(nowS, day)
  {
    var x := nowS / 86400.0;
    assert x * 86400.0 == nowS;
    if OnDay(nowS, day) { assert day as real <= x < (day + 1) as real; }
  }

  /** The run of a tick as the switch keeps it, by day numbers. */
  lemma OpensDayIs(events: seq<Event>, first: nat, i: nat)
    requires i < |events|
    ensures OpensDay(events, first, i) <==>
              && first <= i && events[first].Tick? && events[i].Tick?
              && (forall j :: first <= j <= i && events[j].Tick? ==> UtcDay(events[j].nowS) == UtcDay(events[i].nowS))
              && (forall j :: LastTickBefore(events, first, j) ==> UtcDay(events[j].nowS) != UtcDay(events[i].nowS))
  {
    hide UtcDay, OnDay;
    forall j, day | 0 <= j < |events| ensures UtcDay(events[j].nowS) == day <==> OnDay(events[j].nowS, day) {
      UtcDayIs(events[j].nowS, day);
    }
    if first <= i && events[i].Tick? {
      assert OnDay(events[i].nowS, UtcDay(events[i].nowS));
      if OpensDay(events, first, i) {
        var day :| OpensRun(events, first, i, day);
        assert day == UtcDay(events[i].nowS);
      } else {
        assert !OpensRun(events, first, i, UtcDay(events[i].nowS));
      }
    }
  }

  ghost predicate PeakTracked(s: Switch, events: seq<Event>, n: nat)
    requires n <= |events|
  {
    IsPeak(events, n, s.peakPnl)
  }

  ghost predicate DayTracked(s: Switch, events: seq<Event>, n: nat)
    requires n <= |events|
  {
    && (s.currentUtcDay.None? ==> forall j :: 0 <= j < n ==> !events[j].Tick?)
    && (s.currentUtcDay.Some? ==>
          exists first: nat, i: nat :: i < n && LastTickBefore(events, n, i) && OpensDay(events, first, i)
            && s.currentUtcDay.value == UtcDay(events[i].nowS) && s.dailyAnchorPnl == events[first].pnl)
  }

  ghost predicate SignTracked(s: Switch, events: seq<Event>, n: nat)
    requires n <= |events|
  {
    && (s.lastEventS.None? ==> forall j :: 0 <= j < n ==> events[j].Heartbeat?)
    && (s.lastEventS.Some? ==> exists j :: LastSignBefore(events, n, j) && s.lastEventS.value == events[j].nowS)
  }

  ghost predicate InventoryTracked(s: Switch, events: seq<Event>, n: nat)
    requires n <= |events|
  {
    && (forall j :: LastTickBefore(events, n, j) ==> s.inventory == events[j].inventory)
    && ((forall j :: 0 <= j < n ==> !events[j].Tick?) ==> s.inventory == 0.0)
  }

  ghost predicate TrackedState(s: Switch, events: seq<Event>, n: nat)
    requires n <= |events|
  {
    && PeakTracked(s, events, n) && DayTracked(s, events, n) && SignTracked(s, events, n)
    && InventoryTracked(s, events, n)
  }

  lemma InventoryStep(s: Switch, limits: Limits, events: seq<Event>, n: nat)
    requires n < |events| && InventoryTracked(s, events, n) && limits.Valid()
    ensures InventoryTracked(Told(limits, s, events[n]), events, n + 1)
  {
    var after := Told(limits, s, events[n]);
    assert after.inventory == if events[n].Tick? then events[n].inventory else s.inventory;
    forall j | LastTickBefore(events, n + 1, j) ensures after.inventory == events[j].inventory {
      if j < n { assert LastTickBefore(events, n, j); }
    }
  }

  lemma PeakStep(s: Switch, events: seq<Event>, n: nat)
    requires n < |events| && PeakTracked(s, events, n)
    ensures events[n].Tick? ==> IsPeak(events, n + 1, Max(s.peakPnl, events[n].pnl))
    ensures !events[n].Tick? ==> IsPeak(events, n + 1, s.peakPnl)
  {
    if s.peakPnl != 0.0 {
      var j :| 0 <= j < n && events[j].Tick? && events[j].pnl == s.peakPnl;
    }
  }

  lemma SignStep(s: Switch, limits: Limits, events: seq<Event>, n: nat)
    requires n < |events| && SignTracked(s, events, n) && limits.Valid()
    ensures SignTracked(Told(limits, s, events[n]), events, n + 1)
  {
    var after := Told(limits, s, events[n]);
    if events[n].Heartbeat? {
      assert after.lastEventS == s.lastEventS;
      if s.lastEventS.Some? {
        var j :| LastSignBefore(events, n, j) && s.lastEventS.value == events[j].nowS;
        assert LastSignBefore(events, n + 1, j);
      }
    } else {
      assert LastSignBefore(events, n + 1, n);
    }
  }

  lemma UniqueLastTick(events: seq<Event>, n: nat, i: int, j: int)
    requires n <= |events| && LastTickBefore(events, n, i) && LastTickBefore(events, n, j)
    ensures i == j
  {
  }

  /** A tick on the running day belongs to that day's run ... */
  lemma SameDay(events: seq<Event>, n: nat, first: nat, i: nat)
    requires n < |events| && events[n].Tick? && i < n && LastTickBefore(events, n, i) && OpensDay(events, first, i)
    requires UtcDay(events[i].nowS) == UtcDay(events[n].nowS)
    ensures OpensDay(events, first, n)
  {
    hide UtcDay, OpensDay;
    OpensDayIs(events, first, i);
    OpensDayIs(events, first, n);
  }

  /** ... any other tick opens a run of its own. */
  lemma NewDay(s: Switch, events: seq<Event>, n: nat)
    requires n < |events| && DayTracked(s, events, n) && events[n].Tick?
             && s.currentUtcDay != Some(UtcDay(events[n].nowS))
    ensures OpensDay(events, n, n)
  {
    hide UtcDay;
    forall j | LastTickBefore(events, n, j) ensures UtcDay(events[j].nowS) != UtcDay(events[n].nowS) {
      if s.currentUtcDay.Some? {
        var first: nat, i: nat :| i < n && LastTickBefore(events, n, i) && OpensDay(events, first, i)
          && s.currentUtcDay.value == UtcDay(events[i].nowS) && s.dailyAnchorPnl == events[first].pnl;
        UniqueLastTick(events, n, i, j);
      }
    }
    OpensOwnDay(events, n);
  }

  lemma OpensOwnDay(events: seq<Event>, n: nat)
    requires n < |events| && events[n].Tick?
    requires forall j :: LastTickBefore(events, n, j) ==> UtcDay(events[j].nowS) != UtcDay(events[n].nowS)
    ensures OpensDay(events, n, n)
  {
    hide UtcDay, OpensDay;
    OpensDayIs(events, n, n);
  }

  lemma DayStep(s: Switch, events: seq<Event>, n: nat)
    requires n < |events| && DayTracked(s, events, n) && events[n].Tick?
    ensures var seen := Observed(s, events[n].nowS, events[n].pnl, events[n].inventory);
            exists first: nat :: OpensDay(events, first, n) && seen.dailyAnchorPnl == events[first].pnl
              && seen.dailyLoss == Max(0.0, events[first].pnl - events[n].pnl)
  {
    hide UtcDay, LastTickBefore;
    var seen := Observed(s, events[n].nowS, events[n].pnl, events[n].inventory);
    if s.currentUtcDay == Some(UtcDay(events[n].nowS)) {
      var first: nat, i: nat :| i < n && LastTickBefore(events, n, i) && OpensDay(events, first, i)
        && s.currentUtcDay.value == UtcDay(events[i].nowS) && s.dailyAnchorPnl == events[first].pnl;
      SameDay(events, n, first, i);
      assert OpensDay(events, first, n);
    } else {
      NewDay(s, events, n);
      assert OpensDay(events, n, n);
    }
  }

  lemma DayTrackedStep(s: Switch, limits: Limits, events: seq<Event>, n: nat)
    requires n < |events| && DayTracked(s, events, n) && limits.Valid()
    ensures DayTracked(Told(limits, s, events[n]), events, n + 1)
  {
    hide LastTickBefore;
    if events[n].Tick? {
      DayStep(s, events, n);
      LastTickNow(events, n);
      var seen := Observed(s, events[n].nowS, events[n].pnl, events[n].inventory);
      var first: nat :| OpensDay(events, first, n) && seen.dailyAnchorPnl == events[first].pnl;
      assert LastTickBefore(events, n + 1, n);
    } else if s.currentUtcDay.Some? {
      var first: nat, i: nat :| i < n && LastTickBefore(events, n, i) && OpensDay(events, first, i)
        && s.currentUtcDay.value == UtcDay(events[i].nowS) && s.dailyAnchorPnl == events[first].pnl;
      LastTickStays(events, n, i);
    }
  }

  lemma LastTickNow(events: seq<Event>, n: nat)
    requires n < |events| && events[n].Tick?
    ensures LastTickBefore(events, n + 1, n)
  {
  }

  lemma LastTickStays(events: seq<Event>, n: nat, i: nat)
    requires n < |events| && !events[n].Tick? && LastTickBefore(events, n, i)
    ensures LastTickBefore(events, n + 1, i)
  {
  }

  lemma DivisionMeansProduct(a: real, b: real, c: real)
    requires b > 0.0
    ensures a / b > c <==> a > c * b
  {
    var q := a / b;
    assert q * b == a;
    if q > c { assert (q - c) * b > 0.0; } else { assert (c - q) * b >= 0.0; }
  }

  lemma PeakIsUnique(events: seq<Event>, n: nat, p: real, q: real)
    requires n <= |events| && IsPeak(events, n, p) && IsPeak(events, n, q)
    ensures p == q
  {
  }

  lemma FirstOfDayIsUnique(events: seq<Event>, a: nat, b: nat, i: nat)
    requires i < |events| && OpensDay(events, a, i) && OpensDay(events, b, i)
    ensures a == b
  {
    hide UtcDay, OpensDay;
    OpensDayIs(events, a, i);
    OpensDayIs(events, b, i);
    if a < b { LastTickExists(events, a, b); }
    if b < a { LastTickExists(events, b, a); }
  }

  lemma LastTickExists(events: seq<Event>, a: nat, n: nat)
    requires a < n <= |events| && events[a].Tick?
    ensures exists j :: a <= j && LastTickBefore(events, n, j)
  {
    if events[n - 1].Tick? {
      assert LastTickBefore(events, n, n - 1);
    } else {
      LastTickExists(events, a, n - 1);
      var j :| a <= j && LastTickBefore(events, n - 1, j);
      assert LastTickBefore(events, n, j);
    }
  }

  lemma SignIsUnique(events: seq<Event>, n: nat, i: int, j: int)
    requires n <= |events| && LastSignBefore(events, n, i) && LastSignBefore(events, n, j)
    ensures i == j
  {
  }

  /** The rules the switch applies to its state are the rules stated about the history. */
  lemma BreachIsHistorical(limits: Limits, s: Switch, events: seq<Event>, n: nat)
    requires n < |events| && limits.Valid() && TrackedState(s, events, n)
    ensures events[n].Tick? ==>
              var seen := Observed(s, events[n].nowS, events[n].pnl, events[n].inventory);
              && (DrawdownBreached(limits, seen, events[n].pnl) <==> DrawdownAt(limits, events, n))
              && (DailyLossBreached(limits, seen) <==> DailyLossAt(limits, events, n))
    ensures events[n].Heartbeat? ==> (FeedFrozen(limits, s, events[n].nowS) <==> FrozenAt(limits, events, n))
  {
    if events[n].Tick? {
      PeakBreach(limits, s, events, n);
      DayBreach(limits, s, events, n);
    }
    if events[n].Heartbeat? && s.lastEventS.Some? {
      var j :| LastSignBefore(events, n, j) && s.lastEventS.value == events[j].nowS;
      forall k | LastSignBefore(events, n, k) ensures k == j { SignIsUnique(events, n, j, k); }
    }
  }

  lemma DrawdownMeans(limits: Limits, events: seq<Event>, n: nat, peak: real)
    requires n < |events| && events[n].Tick? && IsPeak(events, n + 1, peak)
    ensures DrawdownAt(limits, events, n) <==> TooDeep(limits, peak, events[n].pnl)
  {
    hide IsPeak, TooDeep;
    if DrawdownAt(limits, events, n) {
      var p :| IsPeak(events, n + 1, p) && TooDeep(limits, p, events[n].pnl);
      PeakIsUnique(events, n + 1, p, peak);
    }
  }

  lemma PeakBreach(limits: Limits, s: Switch, events: seq<Event>, n: nat)
    requires n < |events| && limits.Valid() && PeakTracked(s, events, n) && events[n].Tick?
    ensures var seen := Observed(s, events[n].nowS, events[n].pnl, events[n].inventory);
            DrawdownBreached(limits, seen, events[n].pnl) <==> DrawdownAt(limits, events, n)
  {
    hide IsPeak, DrawdownAt;
    var peak := Max(s.peakPnl, events[n].pnl);
    PeakStep(s, events, n);
    DrawdownMeans(limits, events, n, peak);
    DivisionMeansProduct(peak - events[n].pnl, Max(peak, limits.baselineCapital), limits.maxDrawdownPct);
  }

  lemma DayBreach(limits: Limits, s: Switch, events: seq<Event>, n: nat)
    requires n < |events| && limits.Valid() && DayTracked(s, events, n) && events[n].Tick?
    ensures var seen := Observed(s, events[n].nowS, events[n].pnl, events[n].inventory);
            DailyLossBreached(limits, seen) <==> DailyLossAt(limits, events, n)
  {
    var seen := Observed(s, events[n].nowS, events[n].pnl, events[n].inventory);
    DayStep(s, events, n);
    var first: nat :| OpensDay(events, first, n) && seen.dailyAnchorPnl == events[first].pnl
      && seen.dailyLoss == Max(0.0, events[first].pnl - events[n].pnl);
    forall other: nat | OpensDay(events, other, n) ensures other == first {
      FirstOfDayIsUnique(events, other, first, n);
    }
  }

  lemma PeakTrackedStep(s: Switch, limits: Limits, events: seq<Event>, n: nat)
    requires n < |events| && PeakTracked(s, events, n) && limits.Valid()
    ensures PeakTracked(Told(limits, s, events[n]), events, n + 1)
  {
    PeakStep(s, events, n);
  }

  lemma ArmedTracks(events: seq<Event>)
    ensures PeakTracked(ARMED, events, 0) && DayTracked(ARMED, events, 0) && SignTracked(ARMED, events, 0)
    ensures InventoryTracked(ARMED, events, 0)
  {
  }

  lemma {:induction false} StateTracksHistory(limits: Limits, events: seq<Event>, n: nat)
    requires limits.Valid() && n <= |events|
    ensures TrackedState(After(limits, events[..n]), events, n)
  {
    hide PeakTracked, DayTracked, SignTracked, InventoryTracked, Told;
    if n == 0 {
      ArmedTracks(events);
    } else {
      StateTracksHistory(limits, events, n - 1);
      var s := After(limits, events[..n - 1]);
      assert events[..n][..n - 1] == events[..n - 1];
      PeakTrackedStep(s, limits, events, n - 1);
      DayTrackedStep(s, limits, events, n - 1);
      SignStep(s, limits, events, n - 1);
      InventoryStep(s, limits, events, n - 1);
    }
  }

  lemma ToldTrips(limits: Limits, events: seq<Event>, n: nat)
    requires limits.Valid() && n < |events|
    ensures var before, after := After(limits, events[..n]), After(limits, events[..n + 1]);
            && (TripsAt(limits, events, n) ==> after.halted && after.haltReason == ReasonAt(limits, events, n))
            && (!TripsAt(limits, events, n) ==> after.halted == before.halted && after.haltReason == before.haltReason)
  {
    assert events[..n + 1][..n] == events[..n];
    StateTracksHistory(limits, events, n);
    BreachIsHistorical(limits, After(limits, events[..n]), events, n);
  }

  /**
   The switch is halted after a history exactly when some event of it breached a rule, and the reason
   it reports is that of the last breach: later trips overwrite earlier ones and nothing clears them.
   */
  lemma {:induction false} HaltedIffBreached(limits: Limits, events: seq<Event>, n: nat)
    requires limits.Valid() && n <= |events|
    ensures After(limits, events[..n]).halted <==> exists i :: 0 <= i < n && TripsAt(limits, events, i)
    ensures forall i :: 0 <= i < n && TripsAt(limits, events, i)
                        && (forall k :: i < k < n ==> !TripsAt(limits, events, k)) ==>
              After(limits, events[..n]).haltReason == ReasonAt(limits, events, i)
    ensures After(limits, events[..n]).halted <==> After(limits, events[..n]).haltReason != Healthy
  {
    hide After, TripsAt, ReasonAt;
    if n == 0 {
      ArmedAtStart(limits, events);
    } else {
      HaltedIffBreached(limits, events, n - 1);
      ToldTrips(limits, events, n - 1);
      ReasonOfTrip(limits, events, n - 1);
    }
  }

  lemma ArmedAtStart(limits: Limits, events: seq<Event>)
    requires limits.Valid()
    ensures After(limits, events[..0]) == ARMED
  {
  }

  lemma ReasonOfTrip(limits: Limits, events: seq<Event>, i: nat)
    requires i < |events|
    ensures TripsAt(limits, events, i) <==> ReasonAt(limits, events, i) != Healthy
  {
  }

  /** A halt is never cleared by the feed, not even by the next UTC day. */
  lemma HaltLatches(limits: Limits, events: seq<Event>, n: nat, m: nat)
    requires limits.Valid() && n <= m <= |events| && After(limits, events[..n]).halted
    ensures After(limits, events[..m]).halted
  {
    HaltedIffBreached(limits, events, n);
    HaltedIffBreached(limits, events, m);
  }
}
