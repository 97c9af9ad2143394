/** The runner that every task starts in, and its periodic release times. */
module Runner {

  const SECOND_US: nat := 1_000_000

  /** What the runner does, as seen from outside. */
  datatype Step = CallFunction | SleepUntil(until: nat) | Die

  /** A uint32 division in the source; frequencies above one per microsecond give period 0. */
  function Period(frequency: nat): nat
    requires frequency > 0
  {
    SECOND_US / frequency
  }

  function Release(start: nat, frequency: nat, k: nat): nat
    requires frequency > 0
  {
    start + k * Period(frequency)
  }

  /** The steps of the first |clocks| jobs, where clocks[i] is the clock read after job i. */
  function Jobs(start: nat, frequency: nat, clocks: seq<nat>): seq<Step>
    requires frequency > 0
  {
    if clocks == [] then []
    else
      var n := |clocks|;
      var next := Release(start, frequency, n);
      Jobs(start, frequency, clocks[..n - 1]) + [CallFunction] +
      if clocks[n - 1] <= next then [SleepUntil(next)] else []
  }

  /** What a log of the endless loop looks like, with at[k] the place of job k: first comes the call of the
      function, and then, if the clock read after it is not past the next release, a sleep until that; next
      comes job k + 1, and the last job ends the log. */
  ghost predicate JobsAt(log: seq<Step>, at: seq<nat>, start: nat, period: nat, clocks: seq<nat>)
  {
    && |at| == |clocks| + 1 && at[0] == 0 && at[|clocks|] == |log|
    && forall k :: 0 <= k < |clocks| ==> JobAt(log, at, k, start + (k + 1) * period, clocks[k])
  }

  ghost predicate JobAt(log: seq<Step>, at: seq<nat>, k: nat, next: nat, clock: nat)
    requires k + 1 < |at|
  {
    && at[k] < |log| && log[at[k]] == CallFunction
    && if clock <= next then at[k] + 1 < |log| && log[at[k] + 1] == SleepUntil(next) && at[k + 1] == at[k] + 2
       else at[k + 1] == at[k] + 1
  }

  /** One more job. */
  lemma OneMore(log: seq<Step>, at: seq<nat>, start: nat, period: nat, clocks: seq<nat>, clock: nat, next: nat)
    requires JobsAt(log, at, start, period, clocks) && next == start + (|clocks| + 1) * period
    ensures var log' := log + [CallFunction] + if clock <= next then [SleepUntil(next)] else [];
      JobsAt(log', at + [|log'|], start, period, clocks + [clock])
  {
    var log' := log + [CallFunction] + if clock <= next then [SleepUntil(next)] else [];
    var at', clocks' := at + [|log'|], clocks + [clock];
    forall k | 0 <= k < |clocks'| ensures JobAt(log', at', k, start + (k + 1) * period, clocks'[k]) {
      if k < |clocks| {
        assert JobAt(log, at, k, start + (k + 1) * period, clocks[k]);
      }
    }
  }

  lemma {:induction false} JobsShape(start: nat, frequency: nat, clocks: seq<nat>) returns (at: seq<nat>)
    requires frequency > 0
    ensures JobsAt(Jobs(start, frequency, clocks), at, start, Period(frequency), clocks)
  {
    hide JobsAt, Period;
    if clocks == [] {
      at := [0];
      NoJobs(start, Period(frequency));
    } else {
      var n := |clocks| - 1;
      at := JobsShape(start, frequency, clocks[..n]);
      var log, next := Jobs(start, frequency, clocks[..n]), Release(start, frequency, n + 1);
      OneMore(log, at, start, Period(frequency), clocks[..n], clocks[n], next);
      at := at + [|Jobs(start, frequency, clocks)|];
      assert clocks[..n] + [clocks[n]] == clocks;
    }
  }

  lemma {:induction false} JobsCalls(start: nat, frequency: nat, clocks: seq<nat>)
    requires frequency > 0
    ensures multiset(Jobs(start, frequency, clocks))[CallFunction] == |clocks|
    ensures Die !in Jobs(start, frequency, clocks)
  {
    if clocks != [] {
      JobsCalls(start, frequency, clocks[..|clocks| - 1]);
    }
  }

  lemma NoJobs(start: nat, period: nat)
    ensures JobsAt([], [0], start, period, [])
  {
  }

  /** The task runner. A task without a frequency runs its function once and dies; any other loops
      for ever, here for as many jobs as clock reads are given. */
  method TaskRunner(frequency: nat, start: nat, clocks: seq<nat>) returns (log: seq<Step>)
    ensures log == if frequency == 0 then [CallFunction, Die] else Jobs(start, frequency, clocks)
    ensures frequency > 0 ==>
              && (exists at: seq<nat> :: JobsAt(log, at, start, SECOND_US / frequency, clocks))
              && multiset(log)[CallFunction] == |clocks| && Die !in log
  {
    if frequency == 0 {
      return [CallFunction, Die];
    }
    log := [];
    var nextRun := start;
    var i := 0;
    while i < |clocks|
      invariant 0 <= i <= |clocks|
      invariant nextRun == Release(start, frequency, i)
      invariant log == Jobs(start, frequency, clocks[..i])
    {
      nextRun := nextRun + SECOND_US / frequency;
      assert clocks[..i + 1][..i] == clocks[..i];
      log := log + [CallFunction];
      if nextRun - clocks[i] >= 0 {
        log := log + [SleepUntil(nextRun)];
      }
      i := i + 1;
    }
    assert clocks[..|clocks|] == clocks;
    ghost var at := JobsShape(start, frequency, clocks);
    JobsCalls(start, frequency, clocks);
  }

  /** No drift: the k-th release depends on nothing but the start, and lags k exact periods by less
      than k microseconds. */
  lemma NoDrift(start: nat, frequency: nat, k: nat)
    requires frequency > 0 && k > 0
    ensures 0 <= k * SECOND_US - frequency * (Release(start, frequency, k) - start) < k * frequency
  {
  }

  /** The task sleeps until a time exactly when that is the release after some job, and the job ended by
      then: never until a time that is already past. */
  lemma {:induction false} SleepsAreReleases(start: nat, frequency: nat, clocks: seq<nat>, until: nat)
    requires frequency > 0
    ensures SleepUntil(until) in Jobs(start, frequency, clocks) <==>
            exists k :: 0 < k <= |clocks| && clocks[k - 1] <= until == Release(start, frequency, k)
  {
    if clocks != [] {
      var n := |clocks|;
      SleepsAreReleases(start, frequency, clocks[..n - 1], until);
      hide Release;
      assert Jobs(start, frequency, clocks) == Jobs(start, frequency, clocks[..n - 1]) + [CallFunction] +
             if clocks[n - 1] <= Release(start, frequency, n) then [SleepUntil(Release(start, frequency, n))] else [];
      if exists k :: 0 < k <= n && clocks[k - 1] <= until == Release(start, frequency, k) {
        var k :| 0 < k <= n && clocks[k - 1] <= until == Release(start, frequency, k);
        assert k < n ==> clocks[..n - 1][k - 1] == clocks[k - 1];
      }
    }
  }

  lemma ReleasesGrow(start: nat, frequency: nat, j: nat, k: nat)
    requires 0 < frequency <= SECOND_US && j < k
    ensures Release(start, frequency, j) < Release(start, frequency, k)
  {
  }

  lemma {:induction false} SleepsWithin(start: nat, frequency: nat, clocks: seq<nat>, a: nat)
    requires 0 < frequency <= SECOND_US && a < |Jobs(start, frequency, clocks)|
    requires Jobs(start, frequency, clocks)[a].SleepUntil?
    ensures Jobs(start, frequency, clocks)[a].until <= Release(start, frequency, |clocks|)
  {
    var n := |clocks|;
    if a < |Jobs(start, frequency, clocks[..n - 1])| {
      SleepsWithin(start, frequency, clocks[..n - 1], a);
      ReleasesGrow(start, frequency, n - 1, n);
    }
  }

  /** Up to one release per microsecond, the times a task sleeps until are strictly increasing. */
  lemma {:induction false} SleepsIncrease(start: nat, frequency: nat, clocks: seq<nat>, a: nat, b: nat)
    requires 0 < frequency <= SECOND_US && a < b < |Jobs(start, frequency, clocks)|
    requires Jobs(start, frequency, clocks)[a].SleepUntil? && Jobs(start, frequency, clocks)[b].SleepUntil?
    ensures Jobs(start, frequency, clocks)[a].until < Jobs(start, frequency, clocks)[b].until
  {
    var n := |clocks|;
    var before := Jobs(start, frequency, clocks[..n - 1]);
    if b < |before| {
      SleepsIncrease(start, frequency, clocks[..n - 1], a, b);
    } else if a < |before| {
      SleepsWithin(start, frequency, clocks[..n - 1], a);
      ReleasesGrow(start, frequency, n - 1, n);
    }
  }
}
