/** The kill switch: risk limits, the state it keeps, and the class that updates it. */
module KillSwitches {
  import opened Prelude

  datatype HaltReason = Healthy | MaxDrawdown | HeartbeatTimeout | DailyLoss

  datatype Limits = Limits(maxDrawdownPct: real, maxInventory: real, heartbeatTimeoutS: real,
                           dailyLossLimit: Option<real>, baselineCapital: real)
  {
    /** What the constructor of the limits insists on. */
    predicate Valid() {
      && 0.0 < maxDrawdownPct < 1.0 && maxInventory > 0.0 && heartbeatTimeoutS > 0.0
      && (dailyLossLimit.Some? ==> dailyLossLimit.value > 0.0) && baselineCapital > 0.0
    }
  }

  datatype Switch = Switch(peakPnl: real, inventory: real, lastEventS: Option<real>, dailyLoss: real,
                           dailyAnchorPnl: real, currentUtcDay: Option<int>, halted: bool, haltReason: HaltReason)

  const ARMED: Switch := Switch(0.0, 0.0, None, 0.0, 0.0, None, false, Healthy)

  /** The UTC day of a wall-clock time in seconds, rounded down. */
  function UtcDay(nowS: real): int {
    (nowS / 86400.0).Floor
  }

  function Tripped(s: Switch, reason: HaltReason): Switch {
    s.(halted := true, haltReason := reason)
  }

  function Observed(s: Switch, nowS: real, pnl: real, inventory: real): Switch {
    var day := UtcDay(nowS);
    var seen := s.(inventory := inventory, lastEventS := Some(nowS), peakPnl := Max(s.peakPnl, pnl));
    if s.currentUtcDay == Some(day) then seen.(dailyLoss := Max(0.0, s.dailyAnchorPnl - pnl))
    else seen.(currentUtcDay := Some(day), dailyAnchorPnl := pnl, dailyLoss := 0.0)
  }

  predicate DrawdownBreached(limits: Limits, s: Switch, pnl: real)
    requires limits.Valid()
  {
    (s.peakPnl - pnl) / Max(s.peakPnl, limits.baselineCapital) > limits.maxDrawdownPct
  }

  predicate DailyLossBreached(limits: Limits, s: Switch) {
    limits.dailyLossLimit.Some? && s.dailyLoss > limits.dailyLossLimit.value
  }

  function Ticked(limits: Limits, s: Switch, nowS: real, pnl: real, inventory: real): Switch
    requires limits.Valid()
  {
    var seen := Observed(s, nowS, pnl, inventory);
    if DrawdownBreached(limits, seen, pnl) then Tripped(seen, MaxDrawdown)
    else if DailyLossBreached(limits, seen) then Tripped(seen, DailyLoss)
    else seen
  }

  function MessageNoted(s: Switch, nowS: real): Switch {
    s.(lastEventS := Some(nowS))
  }

  predicate FeedFrozen(limits: Limits, s: Switch, nowS: real) {
    s.lastEventS.Some? && nowS - s.lastEventS.value > limits.heartbeatTimeoutS
  }

  function HeartbeatChecked(limits: Limits, s: Switch, nowS: real): Switch {
    if FeedFrozen(limits, s, nowS) then Tripped(s, HeartbeatTimeout) else s
  }

  class KillSwitch {
    const limits: Limits
    var peakPnl: real
    var inventory: real
    var lastEventS: Option<real>
    var dailyLoss: real
    var dailyAnchorPnl: real
    var currentUtcDay: Option<int>
    var halted: bool
    var haltReason: HaltReason

    ghost function View(): Switch
      reads this
    {
      Switch(peakPnl, inventory, lastEventS, dailyLoss, dailyAnchorPnl, currentUtcDay, halted, haltReason)
    }

    constructor (limits: Limits)
      ensures View() == ARMED && this.limits == limits
    {
      this.limits := limits;
      peakPnl, inventory, lastEventS, dailyLoss, dailyAnchorPnl := 0.0, 0.0, None, 0.0, 0.0;
      currentUtcDay, halted, haltReason := None, false, Healthy;
    }

    method Trip(reason: HaltReason)
      modifies this`halted, this`haltReason
      ensures View() == Tripped(old(View()), reason)
    {
      halted := true;
      haltReason := reason;
    }

    method Tick(nowS: real, currentPnl: real, inventory: real)
      requires limits.Valid()
      modifies this
      ensures View() == Ticked(limits, old(View()), nowS, currentPnl, inventory)
    {
      this.inventory := inventory;
      lastEventS := Some(nowS);
      peakPnl := Max(peakPnl, currentPnl);
      var utcDay := (nowS / 86400.0).Floor;
      if currentUtcDay.None? || utcDay != currentUtcDay.value {
        currentUtcDay := Some(utcDay);
        dailyAnchorPnl := currentPnl;
        dailyLoss := 0.0;
      } else {
        dailyLoss := Max(0.0, dailyAnchorPnl - currentPnl);
      }
      var denom := Max(peakPnl, limits.baselineCapital);
      var drawdownPct := (peakPnl - currentPnl) / denom;
      if drawdownPct > limits.maxDrawdownPct {
        Trip(MaxDrawdown);
        return;
      }
      if limits.dailyLossLimit.Some? && dailyLoss > limits.dailyLossLimit.value {
        Trip(DailyLoss);
        return;
      }
    }

    method NoteWsMessage(nowS: real)
      modifies this`lastEventS
      ensures View() == MessageNoted(old(View()), nowS)
    {
      lastEventS := Some(nowS);
    }

    method HeartbeatCheck(nowS: real)
      modifies this`halted, this`haltReason
      ensures View() == HeartbeatChecked(limits, old(View()), nowS)
    {
      if lastEventS.None? {
        return;
      }
      if nowS - lastEventS.value > limits.heartbeatTimeoutS {
        Trip(HeartbeatTimeout);
      }
    }

    method Reset()
      modifies this
      ensures View() == ARMED
    {
      peakPnl, inventory, lastEventS, dailyLoss, dailyAnchorPnl := 0.0, 0.0, None, 0.0, 0.0;
      currentUtcDay, halted, haltReason := None, false, Healthy;
    }
  }
}
