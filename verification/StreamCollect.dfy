/**
 Collecting a worker's result stream: what counts as a complete result, and when a rejecting observer
 may report that the job itself has ended.
 */
module StreamCollect {
  import opened Base

  type Bytes = seq<bv8>
  type Json(==, !new)

  /**
   What one turn of the loop receives. A chunk comes with what its bytes decode to. `Interrupted` is a
   cancellation, or the drain deadline once an observer has rejected a chunk; the end of the sequence is
   the end of the stream.
   */
  datatype Poll =
    | Data(bytes: Bytes, json: Option<Json>)
    | FinalCollected(bytes: Bytes, json: Option<Json>)
    | End(success: bool)
    | NoValue
    | Broken
    | Interrupted
  {
    predicate IsChunk() { Data? || FinalCollected? }
  }

  datatype Kind = DataKind | FinalCollectedKind
  datatype Chunk = Chunk(kind: Kind, bytes: Bytes, json: Json)

  datatype Outcome = Complete(chunks: seq<Chunk>) | CallbackFailed(terminal: bool)

  const MAX_STREAM_CHUNKS: nat := 4096
  const MAX_STREAM_BYTES: nat := 8 * 1024 * 1024

  /** An observer sees the DATA chunks one by one; its answer may depend on those it saw before. */
  type Observer = (seq<Chunk>, Chunk) -> bool

  // ----- Framing -----

  function Total(polls: seq<Poll>, n: nat): nat
    requires n <= |polls|
  {
    if n == 0 then 0 else Total(polls, n - 1) + if polls[n - 1].IsChunk() then |polls[n - 1].bytes| else 0
  }

  /** The first n polls are chunks that decode and are within both limits. */
  predicate Chunks(polls: seq<Poll>, n: nat) {
    && n <= |polls| && n <= MAX_STREAM_CHUNKS
    && (forall i | 0 <= i < n :: polls[i].IsChunk() && polls[i].json.Some?)
    && Total(polls, n) <= MAX_STREAM_BYTES
  }

  /** Chunks, then one successful END, then the end of the stream. */
  predicate Framed(polls: seq<Poll>) {
    polls != [] && polls[|polls| - 1] == End(true) && Chunks(polls, |polls| - 1)
  }

  function ChunkAt(poll: Poll): Chunk
    requires poll.IsChunk() && poll.json.Some?
  {
    Chunk(if poll.Data? then DataKind else FinalCollectedKind, poll.bytes, poll.json.value)
  }

  function Collected(polls: seq<Poll>, n: nat): (r: seq<Chunk>)
    requires Chunks(polls, n)
    ensures |r| == n && forall i | 0 <= i < n :: r[i] == ChunkAt(polls[i])
  {
    seq(n, i requires 0 <= i < n => ChunkAt(polls[i]))
  }

  /** The DATA chunks among the first n. */
  function Seen(polls: seq<Poll>, n: nat): seq<Chunk>
    requires Chunks(polls, n)
  {
    if n == 0 then []
    else
      assert Chunks(polls, n - 1);
      Seen(polls, n - 1) + if polls[n - 1].Data? then [ChunkAt(polls[n - 1])] else []
  }

  /** The observer accepts every DATA chunk among the first n. */
  predicate AllAccepted(polls: seq<Poll>, n: nat, observer: Option<Observer>)
    requires Chunks(polls, n)
  {
    n == 0 ||
    (assert Chunks(polls, n - 1);
     && AllAccepted(polls, n - 1, observer)
     && (polls[n - 1].Data? && observer.Some? ==>
           observer.value(Seen(polls, n - 1), ChunkAt(polls[n - 1]))))
  }

  lemma {:induction false} TotalGrows(polls: seq<Poll>, m: nat, n: nat)
    requires m <= n <= |polls|
    ensures Total(polls, m) <= Total(polls, n)
  {
    if m < n {
      TotalGrows(polls, m, n - 1);
    }
  }

  /** A stream that stops before its last item is not framed, nor is one that stops without END. */
  lemma Unframed(polls: seq<Poll>, n: nat)
    requires n < |polls| && !(polls[n] == End(true) && n == |polls| - 1) && !Chunks(polls, n + 1)
    ensures !Framed(polls)
  {
    if Framed(polls) && n + 1 <= |polls| - 1 {
      TotalGrows(polls, n + 1, |polls| - 1);
    }
  }

  // ----- The loop -----

  method CollectChunk(poll: Poll, count: nat, total: nat)
    returns (r: Option<Chunk>, count': nat, total': nat)
    requires poll.IsChunk() && total <= MAX_STREAM_BYTES
    ensures r.Some? <==> count < MAX_STREAM_CHUNKS && total + |poll.bytes| <= MAX_STREAM_BYTES && poll.json.Some?
    ensures r.Some? ==> r.value == ChunkAt(poll) && count' == count + 1 && total' == total + |poll.bytes|
    ensures r.None? ==> count' == count && total' == total
  {
    count', total' := count, total;
    if count >= MAX_STREAM_CHUNKS || |poll.bytes| > MAX_STREAM_BYTES - total {
      return None, count', total';
    }
    if poll.json.None? {
      return None, count', total';
    }
    return Some(Chunk(if poll.Data? then DataKind else FinalCollectedKind, poll.bytes, poll.json.value)),
           count + 1, total + |poll.bytes|;
  }

  /** The first n polls are the chunks that were collected, and no more can be. */
  predicate StopsAt(polls: seq<Poll>, n: nat) {
    Chunks(polls, n) && !Chunks(polls, n + 1)
  }

  /**
   Once the stream stopped after n chunks the outcome is settled: complete with exactly these chunks if
   it is framed and they were all accepted; a callback failure if one was rejected, terminal exactly if
   the stream is framed; an error otherwise.
   */
  function Settled(polls: seq<Poll>, n: nat, observer: Option<Observer>): Option<Outcome>
    requires Chunks(polls, n)
  {
    if !AllAccepted(polls, n, observer) then Some(CallbackFailed(Framed(polls)))
    else if Framed(polls) then Some(Complete(Collected(polls, n)))
    else None
  }

  /** The outcomes on which the executor lets go of the job. */
  predicate Releases(r: Option<Outcome>) {
    r.Some? && (r.value.Complete? || r.value.terminal)
  }

  function Failure(rejected: bool): Option<Outcome> {
    if rejected then Some(CallbackFailed(false)) else None
  }

  /** One chunk for each poll, with its bytes and what they decode to, and of the DATA kind for the DATA polls. */
  predicate Keeps(chunks: seq<Chunk>, polls: seq<Poll>) {
    && |chunks| == |polls|
    && forall i | 0 <= i < |polls| ::
         && polls[i].IsChunk() && chunks[i].bytes == polls[i].bytes && polls[i].json == Some(chunks[i].json)
         && (chunks[i].kind == DataKind <==> polls[i].Data?)
  }

  lemma CollectedKeeps(polls: seq<Poll>, n: nat)
    requires Chunks(polls, n)
    ensures Keeps(Collected(polls, n), polls[..n])
  {
  }

  /** One more chunk. */
  lemma Extends(polls: seq<Poll>, n: nat)
    requires Chunks(polls, n) && n < |polls| && n < MAX_STREAM_CHUNKS && polls[n].IsChunk()
    requires polls[n].json.Some? && Total(polls, n) + |polls[n].bytes| <= MAX_STREAM_BYTES
    ensures Chunks(polls, n + 1)
    ensures Collected(polls, n + 1) == Collected(polls, n) + [ChunkAt(polls[n])]
  {
  }

  /** The executor releases the job exactly when the stream is framed, whatever its observer answered. */
  method CollectStreamResult(polls: seq<Poll>, observer: Option<Observer>)
    returns (r: Option<Outcome>, count: nat, total: nat)
    ensures count <= MAX_STREAM_CHUNKS && total <= MAX_STREAM_BYTES
    ensures StopsAt(polls, count) && total == Total(polls, count)
    ensures r == Settled(polls, count, observer)
    ensures Framed(polls) ==> count == |polls| - 1
    ensures Releases(r) <==> Framed(polls)
    ensures r.Some? && r.value.Complete? ==> Keeps(r.value.chunks, polls[..|polls| - 1])
  {
    count, total := 0, 0;
    var chunks: seq<Chunk>, seen: seq<Chunk>, sawEnd, rejected, i := [], [], false, false, 0;
    while i < |polls|
      invariant 0 <= count <= i <= |polls| && i == count + (if sawEnd then 1 else 0)
      invariant Chunks(polls, count) && total == Total(polls, count)
      invariant sawEnd ==> polls[count] == End(true)
      invariant rejected <==> !AllAccepted(polls, count, observer)
      invariant !rejected ==> chunks == Collected(polls, count) && seen == Seen(polls, count)
    {
      var poll := polls[i];
      if poll.Interrupted? || poll.Broken? || poll.NoValue? || poll == End(false) || sawEnd {
        assert !polls[count].IsChunk() && !Chunks(polls, count + 1);
        Unframed(polls, count);
        return Failure(rejected), count, total;
      }
      if poll.End? {
        sawEnd := true;
      } else {
        var chunk, count', total' := CollectChunk(poll, count, total);
        if chunk.None? {
          assert Total(polls, count + 1) == total + |poll.bytes| && !Chunks(polls, count + 1);
          Unframed(polls, count);
          return Failure(rejected), count, total;
        }
        Extends(polls, count);
        if !rejected {
          if poll.Data? && observer.Some? && !observer.value(seen, chunk.value) {
            rejected, chunks := true, [];
          } else {
            chunks := chunks + [chunk.value];
            if poll.Data? {
              seen := seen + [chunk.value];
            }
          }
        }
        count, total := count', total';
      }
      i := i + 1;
    }
    assert !Chunks(polls, count + 1);
    if !sawEnd {
      return Failure(rejected), count, total;
    }
    if rejected {
      return Some(CallbackFailed(true)), count, total;
    }
    CollectedKeeps(polls, count);
    return Some(Complete(chunks)), count, total;
  }
}
