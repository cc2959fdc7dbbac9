/** When a periodic job runs next, and how often a failed job is retried. */
module Schedule {
  import opened Base

  // ----- Periodic jobs -----

  /** The time the next run is counted from: a job without a run time counts from when it started. */
  function BaseTime(start: int, runAfter: int): int { if runAfter == 0 then start else runAfter }

  function NextRunAfterTime(start: int, runAfter: int, interval: int, now: int): int
    requires interval > 0
  {
    var next := BaseTime(start, runAfter) + interval;
    if now > next then (now - next) / interval * interval + next + interval else next
  }

  predicate Congruent(a: int, b: int, interval: int)
    requires interval > 0
  {
    (a - b) % interval == 0
  }

  lemma MultipleIsCongruent(k: int, interval: int)
    requires interval > 0
    ensures (k * interval) % interval == 0
  {
    assert k * interval == interval * k + 0;
    DivisionIsUnique(k * interval, interval, k, 0);
  }

  lemma DivisionIsUnique(x: int, d: int, q: int, r: int)
    requires d > 0 && 0 <= r < d && x == d * q + r
    ensures x % d == r && x / d == q
  {
    var q', r' := x / d, x % d;
    assert x == d * q' + r';
    assert d * (q - q') == r' - r;
    MultipleGrows(d, q - q');
  }

  lemma MultipleGrows(d: int, k: int)
    requires d > 0
    ensures k >= 1 ==> d * k >= d
    ensures k <= -1 ==> d * k <= -d
  {
  }

  lemma CongruentTransitive(a: int, b: int, c: int, interval: int)
    requires interval > 0 && Congruent(a, b, interval) && Congruent(b, c, interval)
    ensures Congruent(a, c, interval)
  {
    var p, q := (a - b) / interval, (b - c) / interval;
    assert a - b == interval * p && b - c == interval * q;
    assert a - c == (p + q) * interval by {
      assert interval * p + interval * q == (p + q) * interval;
    }
    MultipleIsCongruent(p + q, interval);
  }

  /** The next run is on the schedule, after its base and not before now. */
  lemma NextIsOnSchedule(start: int, runAfter: int, interval: int, now: int)
    requires interval > 0
    ensures var base, next := BaseTime(start, runAfter), NextRunAfterTime(start, runAfter, interval, now);
      next > base && next >= now && Congruent(next, base, interval)
  {
    var base := BaseTime(start, runAfter);
    var late := now - (base + interval);
    if late > 0 {
      var q := late / interval;
      assert late == interval * q + late % interval;
      MultipleGrows(interval, q);
      assert q * interval + interval + interval == (q + 2) * interval;
      assert q * interval >= 0;
      MultipleIsCongruent(q + 2, interval);
    } else {
      MultipleIsCongruent(1, interval);
    }
  }

  /** When catching up, the next run is the first scheduled time after now. */
  lemma CatchUpIsLeast(start: int, runAfter: int, interval: int, now: int, t: int)
    requires interval > 0 && now > BaseTime(start, runAfter) + interval
    requires t > now && Congruent(t, BaseTime(start, runAfter), interval)
    ensures NextRunAfterTime(start, runAfter, interval, now) <= t
    ensures NextRunAfterTime(start, runAfter, interval, now) > now
  {
    var base, next := BaseTime(start, runAfter), NextRunAfterTime(start, runAfter, interval, now);
    NextIsOnSchedule(start, runAfter, interval, now);
    var k, j := (t - base) / interval, (next - base) / interval;
    assert t - base == interval * k && next - base == interval * j;
    var late := now - (base + interval);
    assert next - interval == late / interval * interval + base + interval;
    assert late == interval * (late / interval) + late % interval;
    assert interval * (k - (j - 1)) == t - next + interval;
    MultipleGrows(interval, k - (j - 1));
    assert interval * (k - j) == t - next;
    MultipleGrows(interval, k - j);
  }

  /** Otherwise it is the first scheduled time after its base. */
  lemma OnTimeIsLeast(start: int, runAfter: int, interval: int, now: int, t: int)
    requires interval > 0 && now <= BaseTime(start, runAfter) + interval
    requires t > BaseTime(start, runAfter) && Congruent(t, BaseTime(start, runAfter), interval)
    ensures NextRunAfterTime(start, runAfter, interval, now) <= t
  {
    var k := (t - BaseTime(start, runAfter)) / interval;
    assert t - BaseTime(start, runAfter) == interval * k;
    MultipleGrows(interval, k);
  }

  /** The step stays on the previous run's schedule exactly when that run had a time, or fits it anyway. */
  lemma StepStaysOnSchedule(start: int, runAfter: int, interval: int, now: int)
    requires interval > 0
    ensures Congruent(NextRunAfterTime(start, runAfter, interval, now), runAfter, interval)
      <==> runAfter != 0 || start % interval == 0
  {
    var base, next := BaseTime(start, runAfter), NextRunAfterTime(start, runAfter, interval, now);
    NextIsOnSchedule(start, runAfter, interval, now);
    if runAfter == 0 {
      var p := (next - start) / interval;
      assert next - start == interval * p;
      if next % interval == 0 {
        var q := next / interval;
        assert next == interval * q;
        assert start == (q - p) * interval by {
          assert interval * q - interval * p == (q - p) * interval;
        }
        MultipleIsCongruent(q - p, interval);
      } else if start % interval == 0 {
        CongruentTransitive(next, start, 0, interval);
      }
    }
  }

  /** The run times of one periodic job, with the start of each run and the moment each next one was computed. */
  predicate IsChain(times: seq<int>, starts: seq<int>, nows: seq<int>, interval: int)
    requires interval > 0
  {
    && |times| > 0 && |starts| == |nows| == |times|
    && forall k | 0 <= k < |times| - 1 :: times[k + 1] == NextRunAfterTime(starts[k], times[k], interval, nows[k])
  }

  /**
   Every later run of a chain is on the first run's schedule, later than the one before and not before
   the moment it was computed. The first run counts from its own time, or from its start if it has none.
   It is enough that the clock is past the epoch, or that the first run is not before it.
   */
  lemma {:induction false} ChainKeepsSchedule(times: seq<int>, starts: seq<int>, nows: seq<int>, interval: int, k: nat)
    requires interval > 0 && IsChain(times, starts, nows, interval) && 0 < k < |times|
    requires BaseTime(starts[0], times[0]) >= 0 || forall i | 0 <= i < |nows| :: nows[i] > 0
    ensures Congruent(times[k], BaseTime(starts[0], times[0]), interval)
    ensures times[k] > (if k == 1 then BaseTime(starts[0], times[0]) else times[k - 1])
    ensures times[k] > 0 && times[k] >= nows[k - 1]
  {
    assert times[k - 1 + 1] == NextRunAfterTime(starts[k - 1], times[k - 1], interval, nows[k - 1]);
    NextIsOnSchedule(starts[k - 1], times[k - 1], interval, nows[k - 1]);
    if k > 1 {
      ChainKeepsSchedule(times, starts, nows, interval, k - 1);
      CongruentTransitive(times[k], times[k - 1], BaseTime(starts[0], times[0]), interval);
    }
  }

  // ----- Retries -----

  datatype RetryKind = NoRetry | Constant | Linear | Exponential
  datatype RetryPolicy = RetryPolicy(kind: RetryKind, maxRetry: nat)
  datatype Status = Success | ErrorAndRetry | OtherStatus

  datatype JobResult = JobResult(status: Status, retried: nat, endTime: int, resolved: Option<RetryPolicy>)

  /** The fields of a retry that decide what happens next. */
  datatype RetryJob = RetryJob(retried: nat, runAfter: int, policy: Option<RetryPolicy>)

  /** `interval` is the policy's delay after a number of retries, if it has one. */
  function BuildRetryJob(
    dat: JobResult, worker: Option<RetryPolicy>, interval: (RetryPolicy, nat) -> Option<nat>): Option<RetryJob>
  {
    if dat.status != ErrorAndRetry then None
    else
      var policy := if dat.resolved.Some? then dat.resolved else worker;
      if policy.None? || policy.value.kind == NoRetry || dat.retried >= policy.value.maxRetry then None
      else
        var wait := interval(policy.value, dat.retried);
        Some(RetryJob(dat.retried + 1, if wait.Some? then dat.endTime + wait.value else 0, dat.resolved))
  }

  /** Each result but the last led to a retry, which ran under the policy it carried. */
  predicate IsRetryChain(
    results: seq<JobResult>, workers: seq<Option<RetryPolicy>>, interval: (RetryPolicy, nat) -> Option<nat>,
    policy: RetryPolicy)
  {
    && |results| > 0 && |workers| == |results| && results[0].resolved == Some(policy)
    && forall k | 0 <= k < |results| - 1 :: Retried(results[k], workers[k], interval, results[k + 1])
  }

  /** The result led to a retry, and `next` is what became of it. */
  predicate Retried(
    dat: JobResult, worker: Option<RetryPolicy>, interval: (RetryPolicy, nat) -> Option<nat>, next: JobResult)
  {
    var job := BuildRetryJob(dat, worker, interval);
    job.Some? && next.retried == job.value.retried && next.resolved == job.value.policy
  }

  lemma {:induction false} RetryChainCounts(
    results: seq<JobResult>, workers: seq<Option<RetryPolicy>>, interval: (RetryPolicy, nat) -> Option<nat>,
    policy: RetryPolicy, k: nat)
    requires IsRetryChain(results, workers, interval, policy) && k < |results|
    ensures results[k].resolved == Some(policy) && results[k].retried == results[0].retried + k
    ensures k > 0 ==> results[k].retried <= policy.maxRetry && policy.kind != NoRetry
  {
    if k > 0 {
      RetryChainCounts(results, workers, interval, policy, k - 1);
      assert Retried(results[k - 1], workers[k - 1], interval, results[k - 1 + 1]);
    }
  }

  /**
   The retry that follows result k of a chain runs after the delay the carried policy gives for the retries
   so far, counted from the end of that result, or at once when the policy gives none.
   */
  lemma RetryRunsAfterDelay(
    results: seq<JobResult>, workers: seq<Option<RetryPolicy>>, interval: (RetryPolicy, nat) -> Option<nat>,
    policy: RetryPolicy, k: nat)
    requires IsRetryChain(results, workers, interval, policy) && k < |results| - 1
    ensures var job := BuildRetryJob(results[k], workers[k], interval);
      var wait := interval(policy, results[0].retried + k);
      && job.Some? && (wait.Some? ==> job.value.runAfter == results[k].endTime + wait.value)
      && (wait.None? ==> job.value.runAfter == 0)
      && results[k].status == ErrorAndRetry && results[k].retried < policy.maxRetry
  {
    RetryChainCounts(results, workers, interval, policy, k);
    assert Retried(results[k], workers[k], interval, results[k + 1]);
  }

  /** A job is retried exactly after an error that asks for it, under a policy that still allows it. */
  lemma RetriedExactly(
    dat: JobResult, worker: Option<RetryPolicy>, interval: (RetryPolicy, nat) -> Option<nat>)
    ensures BuildRetryJob(dat, worker, interval).Some? <==>
      && dat.status == ErrorAndRetry
      && exists p: RetryPolicy ::
           && (dat.resolved == Some(p) || (dat.resolved.None? && worker == Some(p)))
           && p.kind != NoRetry && dat.retried < p.maxRetry
  {
    var policy := if dat.resolved.Some? then dat.resolved else worker;
    if policy.Some? {
      var p := policy.value;
      assert dat.resolved == Some(p) || (dat.resolved.None? && worker == Some(p));
    }
  }

  /** A fresh job is retried at most `maxRetry` times, whatever becomes of the worker's own policy meanwhile. */
  lemma RetriesAreBounded(
    results: seq<JobResult>, workers: seq<Option<RetryPolicy>>, interval: (RetryPolicy, nat) -> Option<nat>,
    policy: RetryPolicy, worker: Option<RetryPolicy>)
    requires IsRetryChain(results, workers, interval, policy) && results[0].retried == 0
    ensures |results| - 1 <= policy.maxRetry
    ensures |results| - 1 == policy.maxRetry ==> BuildRetryJob(results[|results| - 1], worker, interval).None?
  {
    RetryChainCounts(results, workers, interval, policy, |results| - 1);
  }
}
