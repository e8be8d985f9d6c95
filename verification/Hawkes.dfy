/**
 The exponential-kernel Hawkes process: the recurrence of the likelihood, the online tracker, and
 the double sum that both stand for. `exp` is any function with the law of the exponential.
 */
module Hawkes {
  import opened Prelude

  ghost predicate Adds(exp: real -> real, x: real, y: real) {
    exp(x + y) == exp(x) * exp(y)
  }

  ghost predicate IsExp(exp: real -> real) {
    exp(0.0) == 1.0 && forall x, y :: Adds(exp, x, y)
  }

  /** The factor by which an impulse has faded after `dt`. */
  function Decay(exp: real -> real, beta: real, dt: real): real {
    exp(-beta * dt)
  }

  lemma NoDecay(exp: real -> real, beta: real)
    requires IsExp(exp)
    ensures Decay(exp, beta, 0.0) == 1.0
  {
    assert -beta * 0.0 == 0.0;
  }

  lemma DecaysCompose(exp: real -> real, beta: real, a: real, b: real, total: real)
    requires IsExp(exp) && total == a + b
    ensures Decay(exp, beta, total) == Decay(exp, beta, a) * Decay(exp, beta, b)
  {
    var u, v := -beta * a, -beta * b;
    Distributes(-beta, a, b);
    assert -beta * total == u + v;
    assert Adds(exp, u, v);
  }

  lemma DecayNotNegative(exp: real -> real, beta: real, dt: real)
    requires IsExp(exp)
    ensures Decay(exp, beta, dt) >= 0.0
  {
    var half := Decay(exp, beta, dt / 2.0);
    DecaysCompose(exp, beta, dt / 2.0, dt / 2.0, dt);
    assert half * half >= 0.0;
  }

  // ---------- the recurrence of the likelihood ----------

  /** The sum of exp(-beta (t - ts[j])) over the first `n` times. */
  function Kernel(exp: real -> real, beta: real, ts: seq<real>, n: nat, t: real): real
    requires n <= |ts|
  {
    if n == 0 then 0.0 else Kernel(exp, beta, ts, n - 1, t) + Decay(exp, beta, t - ts[n - 1])
  }

  /** Moving the reference time decays the whole sum by one factor. */
  lemma {:induction false} KernelDecays(exp: real -> real, beta: real, ts: seq<real>, n: nat, t: real, later: real)
    requires n <= |ts| && IsExp(exp)
    ensures Kernel(exp, beta, ts, n, later) == Decay(exp, beta, later - t) * Kernel(exp, beta, ts, n, t)
  {
    hide IsExp, Decay;
    if n > 0 {
      KernelDecays(exp, beta, ts, n - 1, t, later);
      DecaysCompose(exp, beta, later - t, t - ts[n - 1], later - ts[n - 1]);
      Distributes(Decay(exp, beta, later - t), Kernel(exp, beta, ts, n - 1, t), Decay(exp, beta, t - ts[n - 1]));
    }
  }

  lemma Distributes(a: real, b: real, c: real)
    ensures a * (b + c) == a * b + a * c
  {
  }

  lemma {:induction false} KernelNotNegative(exp: real -> real, beta: real, ts: seq<real>, n: nat, t: real)
    requires n <= |ts| && IsExp(exp)
    ensures Kernel(exp, beta, ts, n, t) >= 0.0
  {
    hide IsExp, Decay;
    if n > 0 {
      KernelNotNegative(exp, beta, ts, n - 1, t);
      DecayNotNegative(exp, beta, t - ts[n - 1]);
    }
  }

  /** The last of the first `n + 1` times counts one whole impulse at its own moment. */
  lemma KernelAtLast(exp: real -> real, beta: real, ts: seq<real>, n: nat)
    requires n < |ts| && IsExp(exp)
    ensures Kernel(exp, beta, ts, n + 1, ts[n]) == Kernel(exp, beta, ts, n, ts[n]) + 1.0
  {
    hide IsExp, Decay;
    NoDecay(exp, beta);
  }

  lemma RecurrenceStep(exp: real -> real, beta: real, ts: seq<real>, i: nat)
    requires 0 < i < |ts| && IsExp(exp)
    ensures Kernel(exp, beta, ts, i, ts[i])
            == Decay(exp, beta, ts[i] - ts[i - 1]) * (Kernel(exp, beta, ts, i - 1, ts[i - 1]) + 1.0)
  {
    hide IsExp, Decay;
    KernelDecays(exp, beta, ts, i, ts[i - 1], ts[i]);
    KernelAtLast(exp, beta, ts, i - 1);
  }

  lemma KernelOfNone(exp: real -> real, beta: real, ts: seq<real>, t: real)
    ensures Kernel(exp, beta, ts, 0, t) == 0.0
  {
  }

  /** The linear-time recurrence fills in the quadratic double sum. */
  method FillRecurrence(exp: real -> real, beta: real, ts: seq<real>) returns (R: array<real>)
    requires |ts| > 0 && IsExp(exp)
    ensures R.Length == |ts|
    ensures forall i :: 0 <= i < |ts| ==> R[i] == Kernel(exp, beta, ts, i, ts[i])
  {
    hide IsExp, Kernel;
    KernelOfNone(exp, beta, ts, ts[0]);
    R := new real[|ts|];
    R[0] := 0.0;
    for i := 1 to |ts|
      invariant forall k :: 0 <= k < i ==> R[k] == Kernel(exp, beta, ts, k, ts[k])
    {
      var dt := ts[i] - ts[i - 1];
      R[i] := Decay(exp, beta, dt) * (R[i - 1] + 1.0);
      RecurrenceStep(exp, beta, ts, i);
    }
  }

  datatype Score = Infinite | Finite(value: real)

  function Intensity(exp: real -> real, mu: real, alpha: real, beta: real, ts: seq<real>, i: nat): real
    requires i < |ts|
  {
    mu + alpha * Kernel(exp, beta, ts, i, ts[i])
  }

  function SumLog(exp: real -> real, log: real -> real, mu: real, alpha: real, beta: real, ts: seq<real>, n: nat): real
    requires n <= |ts|
  {
    if n == 0 then 0.0
    else SumLog(exp, log, mu, alpha, beta, ts, n - 1) + log(Intensity(exp, mu, alpha, beta, ts, n - 1))
  }

  function Tails(exp: real -> real, beta: real, ts: seq<real>, n: nat, end: real): real
    requires n <= |ts|
  {
    if n == 0 then 0.0 else Tails(exp, beta, ts, n - 1, end) + (1.0 - Decay(exp, beta, end - ts[n - 1]))
  }

  /**
   The negative log-likelihood. It is infinite exactly for parameters out of range: the second guard,
   on non-positive intensities, never fires.
   */
  method HawkesLogLikelihood(exp: real -> real, log: real -> real, mu: real, alpha: real, beta: real,
                             ts: seq<real>, end: real) returns (r: Score)
    requires IsExp(exp)
    ensures r == Infinite <==> mu <= 0.0 || alpha < 0.0 || beta <= 0.0
    ensures r.Finite? ==>
              r.value == mu * end + (alpha / beta) * Tails(exp, beta, ts, |ts|, end)
                         - SumLog(exp, log, mu, alpha, beta, ts, |ts|)
  {
    hide IsExp, Kernel, Decay;
    if mu <= 0.0 || alpha < 0.0 || beta <= 0.0 { return Infinite; }
    if |ts| == 0 {
      assert SumLog(exp, log, mu, alpha, beta, ts, 0) == 0.0 && Tails(exp, beta, ts, 0, end) == 0.0;
      assert (alpha / beta) * 0.0 == 0.0;
      return Finite(mu * end);
    }
    var R := FillRecurrence(exp, beta, ts);
    var sumLog, kernel, bad := 0.0, 0.0, false;
    for i := 0 to |ts|
      invariant forall k :: 0 <= k < |ts| ==> R[k] == Kernel(exp, beta, ts, k, ts[k])
      invariant !bad && sumLog == SumLog(exp, log, mu, alpha, beta, ts, i) && kernel == Tails(exp, beta, ts, i, end)
    {
      var intensity := mu + alpha * R[i];
      assert intensity == Intensity(exp, mu, alpha, beta, ts, i);
      IntensityPositive(exp, mu, alpha, beta, ts, i);
      bad := bad || intensity <= 0.0;
      sumLog := sumLog + log(intensity);
      kernel := kernel + (1.0 - Decay(exp, beta, end - ts[i]));
    }
    if bad { return Infinite; }
    var compensator := mu * end + (alpha / beta) * kernel;
    return Finite(-(sumLog - compensator));
  }

  lemma IntensityPositive(exp: real -> real, mu: real, alpha: real, beta: real, ts: seq<real>, i: nat)
    requires IsExp(exp) && mu > 0.0 && alpha >= 0.0 && i < |ts|
    ensures Intensity(exp, mu, alpha, beta, ts, i) > 0.0
  {
    hide IsExp, Kernel;
    var k := Kernel(exp, beta, ts, i, ts[i]);
    KernelNotNegative(exp, beta, ts, i, ts[i]);
    assert alpha * k >= 0.0;
  }

  // ---------- the online tracker ----------

  /** One call of the tracker: a time, and whether an event happened at it. */
  datatype Sighting = Sighting(t: real, event: bool)

  ghost predicate InTime(log: seq<Sighting>) {
    forall i, j :: 0 <= i < j < |log| ==> log[i].t <= log[j].t
  }

  /** The times at which events were reported. */
  function EventTimes(log: seq<Sighting>): seq<real> {
    if log == [] then []
    else EventTimes(log[..|log| - 1]) + (if log[|log| - 1].event then [log[|log| - 1].t] else [])
  }

  /** The excitation at `t` from everything reported so far. */
  function Excitation(exp: real -> real, alpha: real, beta: real, log: seq<Sighting>, t: real): real {
    var times := EventTimes(log);
    alpha * Kernel(exp, beta, times, |times|, t)
  }

  lemma EventTimesNext(log: seq<Sighting>, s: Sighting)
    ensures EventTimes(log + [s]) == if s.event then EventTimes(log) + [s.t] else EventTimes(log)
  {
    assert (log + [s])[..|log|] == log;
  }

  lemma {:induction false} KernelPrefix(exp: real -> real, beta: real, ts: seq<real>, more: seq<real>, n: nat, t: real)
    requires n <= |ts|
    ensures Kernel(exp, beta, ts + more, n, t) == Kernel(exp, beta, ts, n, t)
  {
    hide Decay;
    if n > 0 {
      KernelPrefix(exp, beta, ts, more, n - 1, t);
      assert (ts + more)[n - 1] == ts[n - 1];
    }
  }

  /** One update: decay by the elapsed time, then the jump of an event. */
  lemma ExcitationNext(exp: real -> real, alpha: real, beta: real, log: seq<Sighting>, last: real, s: Sighting)
    requires IsExp(exp)
    ensures Excitation(exp, alpha, beta, log + [s], s.t)
            == Excitation(exp, alpha, beta, log, last) * Decay(exp, beta, s.t - last) + (if s.event then alpha else 0.0)
  {
    hide IsExp, Decay, Kernel, EventTimes;
    var times := EventTimes(log);
    EventTimesNext(log, s);
    KernelDecays(exp, beta, times, |times|, last, s.t);
    Reordered(alpha, Decay(exp, beta, s.t - last), Kernel(exp, beta, times, |times|, last));
    if s.event {
      KernelPrefix(exp, beta, times, [s.t], |times|, s.t);
      KernelAtLast(exp, beta, times + [s.t], |times|);
      Distributes(alpha, Kernel(exp, beta, times, |times|, s.t), 1.0);
    }
  }

  lemma Reordered(a: real, d: real, k: real)
    ensures a * (d * k) == (a * k) * d
  {
  }

  class HawkesIntensity {
    const exp: real -> real
    const mu: real
    const alpha: real
    const beta: real
    var state: real
    var lastT: Option<real>

    /** The accepted calls so far. */
    ghost var log: seq<Sighting>

    ghost predicate Valid()
      reads this
    {
      && IsExp(exp) && InTime(log)
      && (lastT == None <==> log == [])
      && (lastT == None ==> state == 0.0)
      && (lastT.Some? ==> lastT.value == log[|log| - 1].t && state == Excitation(exp, alpha, beta, log, lastT.value))
    }

    constructor (exp: real -> real, mu: real, alpha: real, beta: real)
      requires IsExp(exp) && mu >= 0.0 && alpha >= 0.0 && beta > 0.0
      ensures Valid() && log == [] && this.exp == exp && this.mu == mu && this.alpha == alpha && this.beta == beta
    {
      hide IsExp;
      this.exp, this.mu, this.alpha, this.beta := exp, mu, alpha, beta;
      state, lastT, log := 0.0, None, [];
    }

    /** The constructor's guards: bad parameters give no tracker. */
    static method Create(exp: real -> real, mu: real, alpha: real, beta: real) returns (r: Option<HawkesIntensity>)
      requires IsExp(exp)
      ensures r.Some? <==> mu >= 0.0 && alpha >= 0.0 && beta > 0.0
      ensures r.Some? ==>
                && fresh(r.value) && r.value.Valid() && r.value.log == []
                && r.value.exp == exp && r.value.mu == mu && r.value.alpha == alpha && r.value.beta == beta
    {
      if mu < 0.0 || alpha < 0.0 || beta <= 0.0 { return None; }
      var h := new HawkesIntensity(exp, mu, alpha, beta);
      return Some(h);
    }

    /** Going back in time is refused; otherwise the value is the kernel sum over the events so far. */
    method Update(t: real, event: bool) returns (r: Option<real>)
      requires Valid()
      modifies this
      ensures Valid()
      ensures r == None <==> old(lastT.Some? && t < lastT.value)
      ensures r == None ==> log == old(log) && state == old(state) && lastT == old(lastT)
      ensures r.Some? ==> log == old(log) + [Sighting(t, event)] && r.value == mu + Excitation(exp, alpha, beta, log, t)
    {
      hide IsExp, Decay, Excitation;
      var s := Sighting(t, event);
      if lastT.Some? {
        if t < lastT.value { return None; }
        ExcitationNext(exp, alpha, beta, log, lastT.value, s);
        var dt := t - lastT.value;
        state := state * Decay(exp, beta, dt);
      } else {
        FirstExcitation(exp, alpha, beta, s);
        assert log + [s] == [s];
      }
      if event { state := state + alpha; }
      lastT := Some(t);
      log := log + [s];
      return Some(mu + state);
    }

    function Value(): real
      reads this
    {
      mu + state
    }
  }

  lemma FirstExcitation(exp: real -> real, alpha: real, beta: real, s: Sighting)
    requires IsExp(exp)
    ensures Excitation(exp, alpha, beta, [s], s.t) == if s.event then alpha else 0.0
  {
    hide IsExp, Decay, Kernel, EventTimes;
    ExcitationNext(exp, alpha, beta, [], s.t, s);
    NothingYet(exp, alpha, beta, s.t);
    assert [] + [s] == [s];
  }

  lemma NothingYet(exp: real -> real, alpha: real, beta: real, t: real)
    ensures Excitation(exp, alpha, beta, [], t) == 0.0
  {
  }

  // ---------- tracker against recurrence ----------

  /** The intensity in the likelihood at event i is what the tracker, fed the events before it, shows at that time. */
  lemma IntensityIsTracked(exp: real -> real, mu: real, alpha: real, beta: real, log: seq<Sighting>, ts: seq<real>,
                           i: nat)
    requires i < |ts| && EventTimes(log) == ts[..i]
    ensures Intensity(exp, mu, alpha, beta, ts, i) == mu + Excitation(exp, alpha, beta, log, ts[i])
  {
    hide Decay, Kernel, EventTimes;
    assert ts[..i] + ts[i..] == ts;
    KernelPrefix(exp, beta, ts[..i], ts[i..], i, ts[i]);
  }

  /** The compensator over a stretch is what the kernel sum has decayed by in it. */
  lemma {:induction false} TailsGrow(exp: real -> real, beta: real, ts: seq<real>, n: nat, end: real, later: real)
    requires n <= |ts|
    ensures Tails(exp, beta, ts, n, later) - Tails(exp, beta, ts, n, end)
            == Kernel(exp, beta, ts, n, end) - Kernel(exp, beta, ts, n, later)
  {
    if n > 0 { TailsGrow(exp, beta, ts, n - 1, end, later); }
  }

  /** An event adds nothing to the compensator at its own time. */
  lemma TailsAtEvent(exp: real -> real, beta: real, ts: seq<real>, n: nat)
    requires IsExp(exp) && n < |ts|
    ensures Tails(exp, beta, ts, n + 1, ts[n]) == Tails(exp, beta, ts, n, ts[n])
  {
    NoDecay(exp, beta);
  }

  /** Fed the events of the likelihood one by one, the tracker holds alpha (R_i + 1) after event i. */
  lemma TrackerAgrees(exp: real -> real, alpha: real, beta: real, log: seq<Sighting>, ts: seq<real>, i: nat)
    requires IsExp(exp) && i < |ts| && EventTimes(log) == ts[..i + 1]
    ensures Excitation(exp, alpha, beta, log, ts[i]) == alpha * (Kernel(exp, beta, ts, i, ts[i]) + 1.0)
  {
    hide IsExp, Decay, Kernel, EventTimes;
    var fed := ts[..i + 1];
    assert fed + ts[i + 1..] == ts;
    KernelPrefix(exp, beta, fed, ts[i + 1..], i, ts[i]);
    KernelAtLast(exp, beta, fed, i);
  }

  lemma {:induction false} QuietCallLeavesNoTrace(before: seq<Sighting>, t: real, rest: seq<Sighting>)
    ensures EventTimes(before + [Sighting(t, false)] + rest) == EventTimes(before + rest)
  {
    var quiet := before + [Sighting(t, false)];
    if rest == [] {
      EventTimesNext(before, Sighting(t, false));
      assert quiet + rest == quiet && before + rest == before;
    } else {
      var init, last := rest[..|rest| - 1], rest[|rest| - 1];
      QuietCallLeavesNoTrace(before, t, init);
      assert quiet + rest == (quiet + init) + [last] && before + rest == (before + init) + [last];
      EventTimesNext(quiet + init, last);
      EventTimesNext(before + init, last);
    }
  }

  /** A call without an event, put in anywhere, never changes a later value. */
  lemma QuietCallsAreInvisible(exp: real -> real, alpha: real, beta: real,
                               before: seq<Sighting>, t: real, rest: seq<Sighting>, now: real)
    ensures Excitation(exp, alpha, beta, before + [Sighting(t, false)] + rest, now)
            == Excitation(exp, alpha, beta, before + rest, now)
  {
    QuietCallLeavesNoTrace(before, t, rest);
  }
}
