/**
 Waiting for a worker's terminal result. A wait may be dropped and repeated; the result it has read
 stays with the job for the next wait.
 */
module ResultWait {
  import opened Base

  type Json(==, 0, !new)
  type MethodName(==, !new)

  /** The worker and the method a job was enqueued for. */
  datatype Target = Target(worker: int, methodName: MethodName)

  /** The metadata of a result as far as the message carries it. */
  datatype Data = Data(job: Option<JobId>, worker: Option<int>, methodName: Option<MethodName>)

  /** A terminal result; `value` is what a successful, well-sized output decodes to. */
  datatype JobResult = JobResult(data: Option<Data>, value: Option<Json>)

  /** One read of the result stream; past its reads the stream has ended. */
  datatype Read = Got(result: JobResult) | Broken

  predicate Matches(r: JobResult, job: JobId, target: Target) {
    r.data.Some? && r.data.value == Data(Some(job), Some(target.worker), Some(target.methodName))
  }

  /** Where a wait is dropped, if it is: at the read for the result, or at the read for the end. */
  datatype Drop = Never | AtResult | AtEnd

  /**
   `NoResult`: the stream ended or broke before a result. `Trailing`: something other than the end
   followed the result. `Mismatched`: the result is not this job's. `NotOwned`: nobody knows the job.
   */
  datatype Doubt = NoResult | Trailing | Mismatched | NotOwned

  datatype Outcome = Value(json: Json) | Definitive | Uncertain(doubt: Doubt) | AlreadyConsumed | Dropped {
    /** The executor lets go of the job. */
    predicate Releases() { Value? || Definitive? }
  }

  /** How far the stream has been read, and the result that was read but not accepted yet. */
  datatype Reader = Reader(next: nat, pending: Option<JobResult>)

  const FRESH := Reader(0, None)

  // ----- One wait -----

  function Judged(r: JobResult, job: JobId, target: Target): Outcome {
    if !Matches(r, job, target) then Uncertain(Mismatched)
    else if r.value.Some? then Value(r.value.value)
    else Definitive
  }

  /** The read for the end, with a result at hand. */
  function AwaitEnd(
    stream: seq<Read>, next: nat, r: JobResult, drop: Drop, job: JobId, target: Target): (Reader, Outcome)
  {
    if drop == AtEnd then (Reader(next, Some(r)), Dropped)
    else if next < |stream| then (Reader(next + 1, Some(r)), Uncertain(Trailing))
    else (Reader(next, Some(r)), Judged(r, job, target))
  }

  function Waited(stream: seq<Read>, reader: Reader, drop: Drop, job: JobId, target: Target): (Reader, Outcome) {
    if reader.pending.Some? then AwaitEnd(stream, reader.next, reader.pending.value, drop, job, target)
    else if drop == AtResult then (reader, Dropped)
    else if reader.next >= |stream| then (reader, Uncertain(NoResult))
    else if stream[reader.next].Broken? then (Reader(reader.next + 1, None), Uncertain(NoResult))
    else AwaitEnd(stream, reader.next + 1, stream[reader.next].result, drop, job, target)
  }

  class OwnedJob {
    const job: JobId
    const target: Target
    const stream: seq<Read>
    var next: nat
    var pendingResult: Option<JobResult>
    var consumed: bool
    /** The executor's map still holds the job. */
    var owned: bool

    constructor (job: JobId, target: Target, stream: seq<Read>)
      ensures next == 0 && pendingResult == None && !consumed && owned
      ensures this.job == job && this.target == target && this.stream == stream
    {
      this.job, this.target, this.stream := job, target, stream;
      next, pendingResult, consumed, owned := 0, None, false, true;
    }

    method ReceiveResult(drop: Drop) returns (outcome: Outcome)
      modifies this`next, this`pendingResult
      ensures (Reader(next, pendingResult), outcome)
           == Waited(stream, Reader(old(next), old(pendingResult)), drop, job, target)
    {
      var result: JobResult;
      if pendingResult.Some? {
        result := pendingResult.value;
      } else {
        if drop == AtResult {
          return Dropped;
        }
        if next >= |stream| {
          return Uncertain(NoResult);
        }
        var read := stream[next];
        next := next + 1;
        if read.Broken? {
          return Uncertain(NoResult);
        }
        result := read.result;
        pendingResult := Some(result);
      }
      if drop == AtEnd {
        return Dropped;
      }
      if next < |stream| {
        next := next + 1;
        return Uncertain(Trailing);
      }
      if result.data.None? || result.data.value.job != Some(job) || result.data.value.worker != Some(target.worker)
        || result.data.value.methodName != Some(target.methodName)
      {
        return Uncertain(Mismatched);
      }
      return if result.value.Some? then Value(result.value.value) else Definitive;
    }

    /**
     A wait that accepts a result releases the job, and no other does. `held` says that the caller looked
     the job up before it was released or cancelled.
     */
    method WaitWithOwnership(held: bool, drop: Drop) returns (outcome: Outcome)
      modifies this
      ensures !old(owned) && !held ==> outcome == Uncertain(NotOwned)
      ensures (old(owned) || held) && old(consumed) ==> outcome == AlreadyConsumed
      ensures (old(owned) || held) && !old(consumed) ==>
        (Reader(next, pendingResult), outcome)
          == Waited(stream, Reader(old(next), old(pendingResult)), drop, job, target)
      ensures consumed == (old(consumed) || outcome.Releases())
      ensures owned == (old(owned) && !outcome.Releases())
    {
      if !owned && !held {
        return Uncertain(NotOwned);
      }
      if consumed {
        return AlreadyConsumed;
      }
      outcome := ReceiveResult(drop);
      if outcome.Releases() {
        consumed, owned := true, false;
      }
    }
  }

  // ----- When a wait releases the job -----

  /** A matching result, and nothing after it. */
  predicate Concluded(stream: seq<Read>, job: JobId, target: Target) {
    |stream| == 1 && stream[0].Got? && Matches(stream[0].result, job, target)
  }

  /** The first wait releases the job exactly for a matching result followed by the end of the stream. */
  lemma FirstWaitReleases(stream: seq<Read>, drop: Drop, job: JobId, target: Target)
    ensures Waited(stream, FRESH, drop, job, target).1.Releases()
      <==> drop == Never && Concluded(stream, job, target)
  {
  }

  /** The waits on one job, one after another. */
  predicate IsRun(
    readers: seq<Reader>, outcomes: seq<Outcome>, drops: seq<Drop>, stream: seq<Read>, job: JobId, target: Target)
  {
    && |readers| == |drops| + 1 && |outcomes| == |drops| && readers[0] == FRESH
    && forall i | 0 <= i < |drops| :: (readers[i + 1], outcomes[i]) == Waited(stream, readers[i], drops[i], job, target)
  }

  /** The index of the first result of a stream, or its length. */
  function FirstResult(stream: seq<Read>): (f: nat)
    ensures f <= |stream| && (f < |stream| ==> stream[f].Got?) && forall i | 0 <= i < f :: stream[i].Broken?
  {
    if stream == [] || stream[0].Got? then 0 else 1 + FirstResult(stream[1..])
  }

  /** The first result matches and ends the stream; reads that broke may come before it. */
  predicate Framed(stream: seq<Read>, job: JobId, target: Target) {
    var f := FirstResult(stream);
    f + 1 == |stream| && Matches(stream[f].result, job, target)
  }

  /** How many of the first n waits found something after the result. */
  function Swallowed(outcomes: seq<Outcome>, n: nat): nat
    requires n <= |outcomes|
  {
    if n == 0 then 0 else Swallowed(outcomes, n - 1) + if outcomes[n - 1] == Uncertain(Trailing) then 1 else 0
  }

  /** A wait that came as far as the result: it was not dropped before, and there was one. */
  predicate CameTo(outcome: Outcome, drop: Drop) {
    outcome != Uncertain(NoResult) && !(outcome == Dropped && drop == AtResult)
  }

  /** One of the first n waits came as far as the result. */
  predicate Reached(outcomes: seq<Outcome>, drops: seq<Drop>, n: nat)
    requires n <= |outcomes| && |drops| == |outcomes|
  {
    exists i | 0 <= i < n :: CameTo(outcomes[i], drops[i])
  }

  /** How many of the first n waits found no result. */
  function Missed(outcomes: seq<Outcome>, n: nat): nat
    requires n <= |outcomes|
  {
    if n == 0 then 0 else Missed(outcomes, n - 1) + if outcomes[n - 1] == Uncertain(NoResult) then 1 else 0
  }

  /**
   A reader before the first result has read one broken read for each wait that found no result; after it,
   one more read for each wait that found something there.
   */
  predicate ReaderAt(reader: Reader, stream: seq<Read>, reached: bool, missed: nat, swallowed: nat) {
    var f := FirstResult(stream);
    && (reader.pending.Some? <==> reached)
    && (if reader.pending.None?
        then reader.next <= f && swallowed == 0 && (f < |stream| ==> reader.next == missed)
        else
          && f < |stream| && reader.pending.value == stream[f].result
          && reader.next == f + 1 + swallowed <= |stream|)
  }

  /** What one wait adds to what is known of the earlier ones. */
  lemma WaitAdvances(
    stream: seq<Read>, reader: Reader, drop: Drop, job: JobId, target: Target, reached: bool, missed: nat,
    swallowed: nat)
    requires ReaderAt(reader, stream, reached, missed, swallowed)
    ensures var (reader', outcome) := Waited(stream, reader, drop, job, target);
      ReaderAt(reader', stream, reached || CameTo(outcome, drop),
               missed + (if outcome == Uncertain(NoResult) then 1 else 0),
               swallowed + if outcome == Uncertain(Trailing) then 1 else 0)
  {
    var f := FirstResult(stream);
    if reader.pending.None? && reader.next < |stream| {
      assert reader.next < f ==> stream[reader.next].Broken?;
    }
  }

  lemma {:induction false} ReadersAdvance(
    readers: seq<Reader>, outcomes: seq<Outcome>, drops: seq<Drop>, stream: seq<Read>, job: JobId, target: Target,
    n: nat)
    requires IsRun(readers, outcomes, drops, stream, job, target) && n <= |drops|
    ensures ReaderAt(
      readers[n], stream, Reached(outcomes, drops, n), Missed(outcomes, n), Swallowed(outcomes, n))
  {
    if n > 0 {
      ReadersAdvance(readers, outcomes, drops, stream, job, target, n - 1);
      assert (readers[n - 1 + 1], outcomes[n - 1]) == Waited(stream, readers[n - 1], drops[n - 1], job, target);
      WaitAdvances(stream, readers[n - 1], drops[n - 1], job, target,
        Reached(outcomes, drops, n - 1), Missed(outcomes, n - 1), Swallowed(outcomes, n - 1));
      assert Reached(outcomes, drops, n) <==>
        Reached(outcomes, drops, n - 1) || CameTo(outcomes[n - 1], drops[n - 1]);
    }
  }

  /** Wait n has a result at hand: an earlier wait read it, or the earlier ones read everything before it. */
  predicate HasResult(outcomes: seq<Outcome>, drops: seq<Drop>, stream: seq<Read>, n: nat)
    requires n < |outcomes| && |drops| == |outcomes|
  {
    && FirstResult(stream) < |stream|
    && (Reached(outcomes, drops, n) || (Missed(outcomes, n) == FirstResult(stream) && drops[n] != AtResult))
  }

  /** Wait n looks for the end, and everything after the result has been read. */
  predicate SeesEnd(outcomes: seq<Outcome>, drops: seq<Drop>, stream: seq<Read>, n: nat)
    requires n < |outcomes| && |drops| == |outcomes|
  {
    && HasResult(outcomes, drops, stream, n) && drops[n] != AtEnd
    && FirstResult(stream) + 1 + Swallowed(outcomes, n) == |stream|
  }

  /**
   What every wait of every run reports, from the stream and the outcomes of the earlier waits: the value of
   the first result or its failure, one of the three doubts, or that it was dropped.
   */
  lemma {:induction false} WaitReports(
    readers: seq<Reader>, outcomes: seq<Outcome>, drops: seq<Drop>, stream: seq<Read>, job: JobId, target: Target,
    n: nat)
    requires IsRun(readers, outcomes, drops, stream, job, target) && n < |drops|
    ensures var f, outcome := FirstResult(stream), outcomes[n];
      var has, end := HasResult(outcomes, drops, stream, n), SeesEnd(outcomes, drops, stream, n);
      && (forall j :: outcome == Value(j) <==>
            end && Matches(stream[f].result, job, target) && stream[f].result.value == Some(j))
      && (outcome == Definitive <==>
            end && Matches(stream[f].result, job, target) && stream[f].result.value.None?)
      && (outcome == Uncertain(Mismatched) <==> end && !Matches(stream[f].result, job, target))
      && (outcome == Uncertain(Trailing) <==>
            has && drops[n] != AtEnd && f + 1 + Swallowed(outcomes, n) < |stream|)
      && (outcome == Uncertain(NoResult) <==>
            !has && !(drops[n] == AtResult && !Reached(outcomes, drops, n)))
      && (outcome == Dropped <==>
            (drops[n] == AtResult && !Reached(outcomes, drops, n)) || (drops[n] == AtEnd && has))
  {
    ReadersAdvance(readers, outcomes, drops, stream, job, target, n);
    assert (readers[n + 1], outcomes[n]) == Waited(stream, readers[n], drops[n], job, target);
    var f := FirstResult(stream);
    if readers[n].pending.None? && readers[n].next < |stream| {
      assert readers[n].next < f ==> stream[readers[n].next].Broken?;
    }
  }

  /**
   A wait releases the job exactly when it is not dropped, the first result of the stream matches, and the
   earlier waits have read everything after it: one read for each of them that found something there.
   */
  lemma {:induction false} WaitReleases(
    readers: seq<Reader>, outcomes: seq<Outcome>, drops: seq<Drop>, stream: seq<Read>, job: JobId, target: Target,
    n: nat)
    requires IsRun(readers, outcomes, drops, stream, job, target) && n < |drops|
    ensures outcomes[n].Releases() <==>
      SeesEnd(outcomes, drops, stream, n) && Matches(stream[FirstResult(stream)].result, job, target)
  {
    WaitReports(readers, outcomes, drops, stream, job, target, n);
    if outcomes[n].Value? {
      assert outcomes[n] == Value(outcomes[n].json);
    }
  }

  /**
   The job that a wait releases had a matching result followed by the end of its stream if and only if no
   earlier wait on it found something after the result.
   */
  lemma {:induction false} ReleaseIsFramed(
    readers: seq<Reader>, outcomes: seq<Outcome>, drops: seq<Drop>, stream: seq<Read>, job: JobId, target: Target,
    n: nat)
    requires IsRun(readers, outcomes, drops, stream, job, target) && n < |drops| && outcomes[n].Releases()
    ensures Framed(stream, job, target) <==> forall i | 0 <= i < n :: outcomes[i] != Uncertain(Trailing)
    ensures !Framed(stream, job, target) ==>
      FirstResult(stream) + 1 < |stream| && Matches(stream[FirstResult(stream)].result, job, target)
  {
    WaitReleases(readers, outcomes, drops, stream, job, target, n);
    SwallowedNone(outcomes, n);
  }

  lemma {:induction false} SwallowedNone(outcomes: seq<Outcome>, n: nat)
    requires n <= |outcomes|
    ensures Swallowed(outcomes, n) == 0 <==> forall i | 0 <= i < n :: outcomes[i] != Uncertain(Trailing)
  {
    if n > 0 {
      SwallowedNone(outcomes, n - 1);
    }
  }

  /** Two results and the end: the first wait is in doubt, the second accepts the first result all the same. */
  lemma SecondWaitForgetsTheDoubt(r1: JobResult, r2: JobResult, job: JobId, target: Target)
    requires Matches(r1, job, target)
    ensures var stream := [Got(r1), Got(r2)];
      var (reader, outcome) := Waited(stream, FRESH, Never, job, target);
      && outcome == Uncertain(Trailing) && Waited(stream, reader, Never, job, target).1.Releases()
      && !Framed(stream, job, target)
  {
    var stream := [Got(r1), Got(r2)];
    assert FirstResult(stream) == 0;
  }

  /**
   Every stream whose first result matches and is not the last read leads some waits to such a release;
   by `ReleaseIsFramed` no other stream does.
   */
  lemma {:induction false} UnframedReleaseIsPossible(stream: seq<Read>, job: JobId, target: Target)
    returns (readers: seq<Reader>, outcomes: seq<Outcome>, drops: seq<Drop>)
    requires FirstResult(stream) + 1 < |stream| && Matches(stream[FirstResult(stream)].result, job, target)
    ensures IsRun(readers, outcomes, drops, stream, job, target) && drops != []
    ensures outcomes[|drops| - 1].Releases() && !Framed(stream, job, target)
  {
    readers, outcomes, drops := ReadOn(stream, job, target, |stream|);
    var last := readers[|drops|];
    var next := Waited(stream, last, Never, job, target);
    readers, outcomes, drops := readers + [next.0], outcomes + [next.1], drops + [Never];
  }

  /** Undropped waits read the whole stream up to n; each reads at least one item. */
  lemma {:induction false} ReadOn(stream: seq<Read>, job: JobId, target: Target, n: nat)
    returns (readers: seq<Reader>, outcomes: seq<Outcome>, drops: seq<Drop>)
    requires FirstResult(stream) + 1 < |stream| && n <= |stream|
    ensures IsRun(readers, outcomes, drops, stream, job, target)
    ensures var reader := readers[|drops|];
      reader.next >= n && reader.next <= |stream| && (reader.next > FirstResult(stream) <==> reader.pending.Some?)
    ensures readers[|drops|].pending.Some? ==> readers[|drops|].pending.value == stream[FirstResult(stream)].result
  {
    if n == 0 {
      readers, outcomes, drops := [FRESH], [], [];
    } else {
      readers, outcomes, drops := ReadOn(stream, job, target, n - 1);
      var reader := readers[|drops|];
      if reader.next < n {
        var next := Waited(stream, reader, Never, job, target);
        readers, outcomes, drops := readers + [next.0], outcomes + [next.1], drops + [Never];
      }
    }
  }
}
