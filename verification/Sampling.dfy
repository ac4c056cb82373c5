/** Whether a collection window could hold enough samples, and what a sampled collection
    comes to. Numbers are exact reals. */
module Sampling {
  import opened Wrappers

  datatype CollectorError = InsufficientSamples | RunFailed

  const Relative: real := 0.000000001

  /** The slack allowed on a length of time. */
  function Tolerance(x: real): real {
    if x * Relative > Relative then x * Relative else Relative
  }

  function MinimumSampleDuration(interval: real, minimum: nat): real {
    interval * minimum as real
  }

  function ValidateSampleWindow(interval: real, duration: real, minimum: nat): Option<CollectorError> {
    var shortest := MinimumSampleDuration(interval, minimum);
    if duration == 0.0 then None
    else if duration + Tolerance(shortest) < shortest then Some(InsufficientSamples)
    else None
  }

  function EligibleSampleCount(total: nat, interval: real, duration: real): int
    requires interval > 0.0
  {
    var scheduled := ((duration + Tolerance(duration)) / interval).Floor;
    if total < scheduled then total else scheduled
  }

  function Resolve(interval: real, duration: real, minimum: nat, eligible: Option<int>,
                   collectorError: Option<CollectorError>, causedByCleanup: bool): Option<CollectorError>
  {
    var own := if causedByCleanup then None else collectorError;
    if own == Some(RunFailed) then own
    else if ValidateSampleWindow(interval, duration, minimum).Some? then ValidateSampleWindow(interval, duration, minimum)
    else if eligible.None? then if own.Some? then own else Some(RunFailed)
    else if eligible.value < minimum then Some(InsufficientSamples)
    else own
  }

  /** A window in which `minimum` samples are scheduled, give or take the tolerance. */
  predicate HoldsEnough(interval: real, duration: real, minimum: nat) {
    duration + Tolerance(duration) >= MinimumSampleDuration(interval, minimum)
  }

  lemma QuotientAtLeast(x: real, interval: real, n: nat)
    requires interval > 0.0
    ensures x / interval >= n as real <==> x >= interval * n as real
  {
    var q := x / interval;
    assert x == q * interval;
    if q >= n as real {
      Scaled(q, n as real, interval);
    } else {
      Scaled(n as real, q, interval);
    }
  }

  lemma Scaled(a: real, b: real, c: real)
    requires a >= b && c > 0.0
    ensures a * c >= b * c
    ensures a > b ==> a * c > b * c
  {
  }

  /** Enough slots are scheduled exactly in a window that holds enough. */
  lemma EnoughSlots(total: nat, interval: real, duration: real, minimum: nat)
    requires interval > 0.0
    ensures EligibleSampleCount(total, interval, duration) >= minimum
            <==> total >= minimum && HoldsEnough(interval, duration, minimum)
  {
    QuotientAtLeast(duration + Tolerance(duration), interval, minimum);
  }

  /** The window check never refuses a window that holds enough: it only is the looser of
      the two, by the difference of the tolerances. */
  lemma WindowCheckIsLooser(interval: real, duration: real, minimum: nat)
    requires HoldsEnough(interval, duration, minimum)
    ensures ValidateSampleWindow(interval, duration, minimum) == None
  {
    var shortest := MinimumSampleDuration(interval, minimum);
    if duration <= shortest {
      assert duration * Relative <= shortest * Relative;
    }
  }

  /** A sampled collection is accepted if and only if no failure of the collector itself
      stands, enough complete rows were counted, and the window holds enough. */
  lemma Accepted(interval: real, duration: real, minimum: nat, rows: Option<nat>,
                 collectorError: Option<CollectorError>, causedByCleanup: bool)
    requires interval > 0.0
    ensures Resolve(interval, duration, minimum, Eligible(rows, interval, duration), collectorError, causedByCleanup) == None
            <==> (causedByCleanup || collectorError == None)
                 && rows.Some? && rows.value >= minimum && HoldsEnough(interval, duration, minimum)
  {
    if rows.Some? {
      EnoughSlots(rows.value, interval, duration, minimum);
      if HoldsEnough(interval, duration, minimum) {
        WindowCheckIsLooser(interval, duration, minimum);
      }
    }
  }

  function Eligible(rows: Option<nat>, interval: real, duration: real): Option<int>
    requires interval > 0.0
  {
    match rows
    case None => None
    case Some(total) => Some(EligibleSampleCount(total, interval, duration))
  }

  /** Which error it comes to: a failure of the collector itself outranks everything, and a
      failed inspection counts only if nothing else is wrong. */
  lemma WhichError(interval: real, duration: real, minimum: nat, eligible: Option<int>,
                   collectorError: Option<CollectorError>, causedByCleanup: bool)
    ensures var own := if causedByCleanup then None else collectorError;
            var short := ValidateSampleWindow(interval, duration, minimum).Some?;
            var error := Resolve(interval, duration, minimum, eligible, collectorError, causedByCleanup);
            && (error == Some(RunFailed) <==> own == Some(RunFailed) || (!short && eligible.None? && own.None?))
            && (error == Some(InsufficientSamples) <==>
                  own != Some(RunFailed)
                  && (short || own == Some(InsufficientSamples) || (eligible.Some? && eligible.value < minimum)))
  {
  }

  /** The zero duration, which the window check lets pass as unlimited, is refused if and only
      if a failure of the collector itself stands, the rows fall short, or the minimum duration
      is above the smallest tolerance. */
  lemma ZeroDurationRefused(interval: real, minimum: nat, rows: Option<nat>,
                            collectorError: Option<CollectorError>, causedByCleanup: bool)
    requires interval > 0.0
    ensures ValidateSampleWindow(interval, 0.0, minimum) == None
    ensures Resolve(interval, 0.0, minimum, Eligible(rows, interval, 0.0), collectorError, causedByCleanup) != None
            <==> (!causedByCleanup && collectorError.Some?) || rows.None? || rows.value < minimum
                 || MinimumSampleDuration(interval, minimum) > Relative
  {
    Accepted(interval, 0.0, minimum, rows, collectorError, causedByCleanup);
  }

  /** A window at least as long as the minimum duration holds enough. */
  lemma LongEnough(interval: real, duration: real, minimum: nat)
    requires interval > 0.0 && duration >= MinimumSampleDuration(interval, minimum)
    ensures HoldsEnough(interval, duration, minimum)
  {
  }

  /** Below it the two tolerances differ: a window can pass the check and still have one slot
      too few, however many rows there are. */
  lemma ToleranceGap(rows: nat)
    ensures var duration := 1.999999998;
            && ValidateSampleWindow(1.0, duration, 2) == None
            && EligibleSampleCount(rows, 1.0, duration) < 2
            && Resolve(1.0, duration, 2, Some(EligibleSampleCount(rows, 1.0, duration)), None, false)
                 == Some(InsufficientSamples)
  {
    var d := 1.999999998;
    assert d * Relative == 0.000000001999999998;
    EnoughSlots(rows, 1.0, d, 2);
  }
}
