/**
 The second and third stage of a direct run, and what the three stages store together.

 The second stage merges the converted stream with the outcome of the worker's job, which can arrive at
 any moment. The third persists every event, stops at the first terminal event or when the run is
 cancelled, and supplies the terminal event that is still missing.
 */
module DirectPipeline {
  import opened Base
  import opened RunEvents
  import opened DirectConvert

  // ----- Merging with the job result -----

  function JobFailure(open: bool, m: MessageId): seq<Event> {
    (if open then [TextEnd(m)] else []) + [RunError(JobFailed)]
  }

  /** After the loop an outcome that has not been looked at yet is awaited and checked. */
  function LateFailure(open: bool, arrival: Option<nat>, ok: bool, m: MessageId): seq<Event> {
    if arrival.Some? && !ok then JobFailure(open, m) else []
  }

  function OpenAfter(open: bool, event: Event): bool {
    if event.TextStart? then true else if event.TextEnd? then false else open
  }

  function Earlier(n: Option<nat>): Option<nat>
    requires n != Some(0)
  {
    if n.Some? then Some(n.value - 1) else None
  }

  /**
   The merged stream. `arrival` is how many events are taken before the job's outcome, `ok` when it is a
   success; it is `None` once the outcome has been checked.
   */
  function Merged(source: seq<Event>, open: bool, arrival: Option<nat>, ok: bool, m: MessageId): seq<Event>
    decreases |source|, arrival.Some?
  {
    if arrival == Some(0) then
      if ok then Merged(source, open, None, ok, m) else JobFailure(open, m)
    else if source == [] then LateFailure(open, arrival, ok, m)
    else if source[0].RunError? then
      (if open then [TextEnd(m)] else []) + [source[0]] + LateFailure(open, arrival, ok, m)
    else [source[0]] + Merged(source[1..], OpenAfter(open, source[0]), Earlier(arrival), ok, m)
  }

  function Remaining(arrival: nat, taken: nat, checked: bool): Option<nat> {
    if checked || arrival < taken then None else Some(arrival - taken)
  }

  method EndWith(events: seq<Event>, textOpen: bool, event: Event, m: MessageId) returns (r: seq<Event>)
    ensures r == events + ((if textOpen then [TextEnd(m)] else []) + [event])
  {
    r := events;
    if textOpen {
      r := r + [TextEnd(m)];
    }
    r := r + [event];
  }

  method Merge(source: seq<Event>, arrival: nat, ok: bool, m: MessageId) returns (events: seq<Event>)
    ensures events == Merged(source, false, Some(arrival), ok, m)
  {
    events := [];
    var resultChecked, textOpen, i := false, false, 0;
    ghost var whole, rest := Merged(source, false, Some(arrival), ok, m), [];
    while true
      invariant 0 <= i <= |source|
      invariant resultChecked ==> ok
      invariant !resultChecked ==> i <= arrival
      invariant events + Merged(source[i..], textOpen, Remaining(arrival, i, resultChecked), ok, m) == whole
      decreases |source| - i, !resultChecked
    {
      if !resultChecked && i == arrival {
        resultChecked := true;
        if !ok {
          rest := [];
          events := EndWith(events, textOpen, RunError(JobFailed), m);
          break;
        }
      } else if i == |source| {
        rest := LateFailure(textOpen, Remaining(arrival, i, resultChecked), ok, m);
        break;
      } else {
        var event := source[i];
        assert source[i..][1..] == source[i + 1..];
        if event.RunError? {
          rest := LateFailure(textOpen, Remaining(arrival, i, resultChecked), ok, m);
          Assoc(events, (if textOpen then [TextEnd(m)] else []) + [event], rest);
          events := EndWith(events, textOpen, event, m);
          break;
        }
        textOpen := OpenAfter(textOpen, event);
        rest := Merged(source[i + 1..], textOpen, Remaining(arrival, i + 1, resultChecked), ok, m);
        Assoc(events, [event], rest);
        events := events + [event];
        i := i + 1;
      }
    }
    assert events + rest == whole;
    if !resultChecked && !ok {
      events := EndWith(events, textOpen, RunError(JobFailed), m);
    }
  }

  // ----- Persisting -----

  datatype SessionState = Active | Paused | Completed | Cancelled | Error {
    predicate IsTerminal() { Completed? || Cancelled? || Error? }
  }

  /** What follows RUN_STARTED in the store. `cut` is how many events are taken before the cancel is seen. */
  function Produced(source: seq<Event>, cut: Option<nat>, open: Option<MessageId>): seq<Event>
    decreases |source|
  {
    if cut == Some(0) then
      (if open.Some? then [TextEnd(open.value)] else []) + [RunError(CancelledByUser)]
    else if source == [] then [RunFinished]
    else if source[0].IsTerminal() then [source[0]]
    else [source[0]] + Produced(source[1..], Earlier(cut), NowOpen(open, source[0]))
  }

  function NowOpen(open: Option<MessageId>, event: Event): Option<MessageId> {
    if event.TextStart? then Some(event.message) else if event.TextEnd? then None else open
  }

  function FinalState(source: seq<Event>, cut: Option<nat>): SessionState
    decreases |source|
  {
    if cut == Some(0) then Cancelled
    else if source == [] || source[0].RunFinished? then Completed
    else if source[0].RunError? then Error
    else FinalState(source[1..], Earlier(cut))
  }

  function Trace(source: seq<Event>, cut: Option<nat>): seq<Event> {
    [RunStarted] + Produced(source, cut, None)
  }

  datatype ProducerEnd = Terminal(state: SessionState) | SourceEnded | CancelSeen

  /** The producer on its own; `cut` stands for the moment its cancel token is seen. */
  method Produce(source: seq<Event>, cut: Option<nat>) returns (stored: seq<Event>, state: SessionState)
    ensures stored == Trace(source, cut)
    ensures state == FinalState(source, cut)
  {
    stored := [RunStarted];
    var openText: Option<MessageId>, i, end := None, 0, SourceEnded;
    ghost var left := cut;
    while true
      invariant 0 <= i <= |source|
      invariant cut.Some? ==> i <= cut.value
      invariant left == if cut.Some? then Some(cut.value - i) else None
      invariant stored + Produced(source[i..], left, openText) == Trace(source, cut)
      invariant FinalState(source[i..], left) == FinalState(source, cut)
      decreases |source| - i
    {
      if cut == Some(i) {
        end := CancelSeen;
        break;
      }
      if i == |source| {
        end := SourceEnded;
        break;
      }
      var event := source[i];
      assert source[i..][1..] == source[i + 1..];
      openText := NowOpen(openText, event);
      if event.IsTerminal() {
        stored := stored + [event];
        end := Terminal(if event.RunFinished? then Completed else Error);
        break;
      }
      left := Earlier(left);
      Assoc(stored, [event], Produced(source[i + 1..], left, openText));
      stored := stored + [event];
      i := i + 1;
    }
    match end
    case Terminal(s) =>
      state := s;
    case SourceEnded =>
      stored := stored + [RunFinished];
      state := Completed;
    case CancelSeen =>
      if openText.Some? {
        stored := stored + [TextEnd(openText.value)];
      }
      stored := stored + [RunError(CancelledByUser)];
      state := Cancelled;
  }

  // ----- What is stored, for every interleaving -----

  lemma {:induction false} MergedFeeds(source: seq<Event>, b: Bracket, arrival: Option<nat>, ok: bool, m: MessageId)
    requires Feeds(source, b, m)
    ensures Feeds(Merged(source, b == Open, arrival, ok, m), b, m)
    decreases |source|, arrival.Some?
  {
    if arrival == Some(0) {
      if ok {
        MergedFeeds(source, b, None, ok, m);
      } else {
        FailureFeeds(b, m);
      }
    } else if source == [] {
      FailureFeeds(b, m);
    } else if !source[0].RunError? && !source[0].IsTerminal() {
      var b' := Bracketed(b, source[0], m);
      assert b' != Broken;
      assert (b' == Open) == OpenAfter(b == Open, source[0]);
      MergedFeeds(source[1..], b', Earlier(arrival), ok, m);
    }
  }

  lemma FailureFeeds(b: Bracket, m: MessageId)
    requires b != Broken
    ensures Feeds(JobFailure(b == Open, m), b, m)
  {
    if b == Open {
      assert JobFailure(true, m)[1..] == [RunError(JobFailed)];
    }
  }

  /** The merged stream reports no failure exactly when neither the stream nor the job does. */
  lemma {:induction false} MergedSucceeds(source: seq<Event>, open: bool, arrival: Option<nat>, ok: bool, m: MessageId)
    ensures NoTerminal(Merged(source, open, arrival, ok, m)) <==> NoTerminal(source) && (arrival.Some? ==> ok)
    ensures (forall e | e in source :: !e.RunFinished?) ==>
      forall e | e in Merged(source, open, arrival, ok, m) :: !e.RunFinished?
    decreases |source|, arrival.Some?
  {
    if arrival == Some(0) {
      if ok {
        MergedSucceeds(source, open, None, ok, m);
      } else {
        var failure := JobFailure(open, m);
        assert failure[|failure| - 1].IsTerminal();
      }
    } else if source == [] {
      var failure := JobFailure(open, m);
      assert failure[|failure| - 1].IsTerminal();
    } else if source[0].RunError? {
      var closing := if open then [TextEnd(m)] else [];
      var late := LateFailure(open, arrival, ok, m);
      assert (closing + [source[0]] + late)[|closing|] == source[0];
    } else {
      var rest := Merged(source[1..], OpenAfter(open, source[0]), Earlier(arrival), ok, m);
      MergedSucceeds(source[1..], OpenAfter(open, source[0]), Earlier(arrival), ok, m);
      NoTerminalHead(source[0], source[1..]);
      NoTerminalHead(source[0], rest);
      assert source == [source[0]] + source[1..];
    }
  }

  function Errors(events: seq<Event>): nat {
    if events == [] then 0 else (if events[0].RunError? then 1 else 0) + Errors(events[1..])
  }

  /** The index of the first RUN_ERROR, or the length. */
  function FirstError(events: seq<Event>): (k: nat)
    ensures k <= |events| && (k < |events| ==> events[k].RunError?)
  {
    if events == [] || events[0].RunError? then 0 else 1 + FirstError(events[1..])
  }

  /**
   On its own this stage reports at most two failures. It reports two exactly when the stream fails and the
   job's outcome, a failure too, has not been looked at by then.
   */
  lemma {:induction false} MergedErrors(source: seq<Event>, open: bool, arrival: Option<nat>, ok: bool, m: MessageId)
    ensures Errors(Merged(source, open, arrival, ok, m)) <= 2
    ensures Errors(Merged(source, open, arrival, ok, m)) == 2
      <==> FirstError(source) < |source| && arrival.Some? && arrival.value > FirstError(source) && !ok
    decreases |source|, arrival.Some?
  {
    FailureHasOne(open, m);
    if arrival == Some(0) {
      if ok {
        MergedErrors(source, open, None, ok, m);
      }
    } else if source == [] {
    } else if source[0].RunError? {
      var closing, late := if open then [TextEnd(m)] else [], LateFailure(open, arrival, ok, m);
      ErrorsConcat(closing + [source[0]], late);
      ErrorsConcat(closing, [source[0]]);
    } else {
      MergedErrors(source[1..], OpenAfter(open, source[0]), Earlier(arrival), ok, m);
    }
  }

  lemma FailureHasOne(open: bool, m: MessageId)
    ensures Errors(JobFailure(open, m)) == 1
  {
    ErrorsConcat(if open then [TextEnd(m)] else [], [RunError(JobFailed)]);
  }

  lemma {:induction false} ErrorsConcat(xs: seq<Event>, ys: seq<Event>)
    ensures Errors(xs + ys) == Errors(xs) + Errors(ys)
    decreases xs
  {
    if xs == [] {
      assert xs + ys == ys;
    } else {
      assert (xs + ys)[1..] == xs[1..] + ys;
      ErrorsConcat(xs[1..], ys);
    }
  }

  /** The index of the first terminal event, or the length. */
  function FirstTerminal(events: seq<Event>): (k: nat)
    ensures k <= |events| && (k < |events| ==> events[k].IsTerminal())
  {
    if events == [] || events[0].IsTerminal() then 0 else 1 + FirstTerminal(events[1..])
  }

  predicate NoFinish(events: seq<Event>) { forall i | 0 <= i < |events| :: !events[i].RunFinished? }

  /** The job's failure is the first: the stream has none, or the outcome comes before the stream's. */
  predicate JobFailsFirst(source: seq<Event>, arrival: Option<nat>, ok: bool) {
    arrival.Some? && !ok && (FirstError(source) == |source| || arrival.value <= FirstError(source))
  }

  /** Whether a merged stream has a terminal event, and which comes first. */
  predicate EndsAs(all: seq<Event>, source: seq<Event>, arrival: Option<nat>, ok: bool) {
    var p, k := FirstTerminal(all), FirstError(source);
    && (p == |all| <==> k == |source| && !JobFailsFirst(source, arrival, ok))
    && (p < |all| && JobFailsFirst(source, arrival, ok) ==> all[p] == RunError(JobFailed))
    && (p < |all| && !JobFailsFirst(source, arrival, ok) ==> k < |source| && all[p] == source[k])
  }

  /** The first failure of the merged stream: the job's or the stream's own, whichever comes first. */
  lemma {:induction false} MergedEnd(source: seq<Event>, open: bool, arrival: Option<nat>, ok: bool, m: MessageId)
    requires NoFinish(source)
    ensures EndsAs(Merged(source, open, arrival, ok, m), source, arrival, ok)
    decreases |source|, arrival.Some?
  {
    FailureEnds(open, m);
    if arrival == Some(0) {
      if ok {
        MergedEnd(source, open, None, ok, m);
      }
    } else if source == [] {
    } else if source[0].RunError? {
      TerminalAfter(open, source[0], LateFailure(open, arrival, ok, m), m);
    } else {
      var rest := Merged(source[1..], OpenAfter(open, source[0]), Earlier(arrival), ok, m);
      MergedEnd(source[1..], OpenAfter(open, source[0]), Earlier(arrival), ok, m);
      EndsAsHead(rest, source, arrival, ok);
    }
  }

  lemma EndsAsHead(rest: seq<Event>, source: seq<Event>, arrival: Option<nat>, ok: bool)
    requires source != [] && !source[0].IsTerminal() && arrival != Some(0)
    requires EndsAs(rest, source[1..], Earlier(arrival), ok)
    ensures EndsAs([source[0]] + rest, source, arrival, ok)
  {
    var all := [source[0]] + rest;
    assert all[1..] == rest;
    assert FirstTerminal(all) == 1 + FirstTerminal(rest) && FirstError(source) == 1 + FirstError(source[1..]);
  }

  lemma FailureEnds(open: bool, m: MessageId)
    ensures var all := JobFailure(open, m); FirstTerminal(all) == |all| - 1 && all[|all| - 1] == RunError(JobFailed)
  {
    TerminalAfter(open, RunError(JobFailed), [], m);
    assert JobFailure(open, m) + [] == JobFailure(open, m);
  }

  lemma TerminalAfter(open: bool, e: Event, ys: seq<Event>, m: MessageId)
    requires e.IsTerminal()
    ensures var closing := if open then [TextEnd(m)] else [];
      FirstTerminal(closing + [e] + ys) == |closing| && (closing + [e] + ys)[|closing|] == e
  {
    var closing := if open then [TextEnd(m)] else [];
    var all := closing + [e] + ys;
    assert all[|closing|] == e;
    if open {
      assert all[0] == TextEnd(m) && all[1..] == [e] + ys;
    }
  }

  /** The smallest such case. */
  lemma MergedCanFailTwice(m: MessageId)
    ensures Merged([RunError(IncompleteStream)], false, Some(1), false, m)
         == [RunError(IncompleteStream), RunError(JobFailed)]
  {
    assert JobFailure(false, m) == [RunError(JobFailed)];
  }

  lemma NoTerminalHead(e: Event, rest: seq<Event>)
    ensures NoTerminal([e] + rest) <==> !e.IsTerminal() && !e.RunStarted? && NoTerminal(rest)
  {
    var all := [e] + rest;
    assert all[0] == e && all[1..] == rest;
    if NoTerminal(all) {
      assert forall i | 0 <= i < |rest| :: rest[i] == all[i + 1];
    }
  }

  function OpenText(b: Bracket, m: MessageId): Option<MessageId> {
    if b == Open then Some(m) else None
  }

  /** A cancel is seen before the first terminal event of the source, or before its end. */
  predicate CancelFirst(source: seq<Event>, cut: Option<nat>) { cut.Some? && cut.value <= FirstTerminal(source) }

  /** The terminal event that goes with a source and the moment a cancel is seen. */
  function Ending(source: seq<Event>, cut: Option<nat>): Event {
    if CancelFirst(source, cut) then RunError(CancelledByUser)
    else if FirstTerminal(source) < |source| then source[FirstTerminal(source)]
    else RunFinished
  }

  /** Whatever feeds the producer, it stores a body without a terminal event and then exactly one. */
  lemma {:induction false} ProducedShape(source: seq<Event>, cut: Option<nat>, b: Bracket, m: MessageId)
    returns (body: seq<Event>, terminal: Event)
    requires Feeds(source, b, m)
    ensures Produced(source, cut, OpenText(b, m)) == body + [terminal]
    ensures NoTerminal(body) && terminal.IsTerminal()
    ensures Settled(BracketAfter(b, body, m))
    ensures terminal == Ending(source, cut)
    decreases |source|
  {
    if cut == Some(0) {
      body, terminal := if b == Open then [TextEnd(m)] else [], RunError(CancelledByUser);
    } else if source == [] {
      body, terminal := [], RunFinished;
    } else if source[0].IsTerminal() {
      body, terminal := [], source[0];
    } else {
      var b' := Bracketed(b, source[0], m);
      assert OpenText(b', m) == NowOpen(OpenText(b, m), source[0]);
      var rest;
      rest, terminal := ProducedShape(source[1..], Earlier(cut), b', m);
      body := [source[0]] + rest;
      Assoc([source[0]], rest, [terminal]);
      NoTerminalHead(source[0], rest);
      NoTerminalHead(source[0], source[1..]);
      assert source == [source[0]] + source[1..];
      assert body[1..] == rest;
    }
  }

  /** The stream that reaches the producer. */
  function Source(items: seq<Item>, arrival: nat, ok: bool, m: MessageId): seq<Event> {
    Merged(Converted(items, "", {}, false, m), false, Some(arrival), ok, m)
  }

  lemma SourceFeeds(items: seq<Item>, arrival: nat, ok: bool, m: MessageId)
    ensures Feeds(Source(items, arrival, ok, m), Idle, m)
  {
    ConvertedFeeds(items, "", {}, false, m);
    MergedFeeds(Converted(items, "", {}, false, m), Idle, Some(arrival), ok, m);
  }

  /**
   For all items, at whatever moment the job's outcome arrives and a cancel is seen, the stored trace is
   RUN_STARTED, a body without terminal events whose text message is closed, and one terminal event.
   It reports the cancel if that was seen first, RUN_FINISHED if the items succeed and the job did, and
   otherwise the failure that came first: the job's, or the items' with its own code.
   */
  lemma StoredTrace(items: seq<Item>, arrival: nat, ok: bool, cut: Option<nat>, m: MessageId)
    returns (body: seq<Event>, terminal: Event)
    ensures Trace(Source(items, arrival, ok, m), cut) == [RunStarted] + body + [terminal]
    ensures NoTerminal(body) && terminal.IsTerminal()
    ensures Settled(BracketAfter(Idle, body, m))
    ensures Count(body, TextStart(m)) == Count(body, TextEnd(m)) <= 1
    ensures EndsWith(items, arrival, ok, cut, m, terminal)
  {
    var source := Source(items, arrival, ok, m);
    SourceFeeds(items, arrival, ok, m);
    body, terminal := ProducedShape(source, cut, Idle, m);
    Assoc([RunStarted], body, [terminal]);
    SettledTextIsClosedOnce(body, Idle, m);
    SourceEnds(items, arrival, ok, cut, m);
  }

  /** How many events the items give before they fail, or in all. */
  function Before(items: seq<Item>, m: MessageId): nat { FirstError(Converted(items, "", {}, false, m)) }

  /** Which terminal event is stored, said of the items, the job and the cancel. */
  ghost predicate EndsWith(
    items: seq<Item>, arrival: nat, ok: bool, cut: Option<nat>, m: MessageId, terminal: Event)
  {
    var cancelled := CancelFirst(Source(items, arrival, ok, m), cut);
    && (terminal == RunError(CancelledByUser) <==> cancelled)
    && (terminal == RunFinished <==> !cancelled && Succeeds(items) && ok)
    && (terminal == RunError(JobFailed) <==>
          !cancelled && !ok && (Succeeds(items) || arrival <= Before(items, m)))
    && forall code: ErrorCode | !code.CancelledByUser? && !code.JobFailed? ::
         terminal == RunError(code) <==> !cancelled && Fails(items, code) && (ok || arrival > Before(items, m))
  }

  lemma SourceEnds(items: seq<Item>, arrival: nat, ok: bool, cut: Option<nat>, m: MessageId)
    ensures EndsWith(items, arrival, ok, cut, m, Ending(Source(items, arrival, ok, m), cut))
  {
    var converted := Converted(items, "", {}, false, m);
    var body, error := ErrorIsSingleAndLast(items, m);
    ConvertedEnd(converted, body, error);
    MergedEnd(converted, false, Some(arrival), ok, m);
    FailsIsNotOutside(items);
  }

  lemma {:induction false} ConvertedEnd(converted: seq<Event>, body: seq<Event>, error: Option<ErrorCode>)
    requires converted == body + ErrorEvents(error) && NoTerminal(body)
    ensures NoFinish(converted)
    ensures FirstError(converted) == |body|
    ensures error.Some? ==> converted[|body|] == RunError(error.value)
    decreases body
  {
    if body != [] {
      assert converted[1..] == body[1..] + ErrorEvents(error) && converted[0] == body[0];
      ConvertedEnd(converted[1..], body[1..], error);
      assert converted == [converted[0]] + converted[1..];
    }
  }

  /** The items never fail by a cancel or by the job. */
  lemma FailsIsNotOutside(items: seq<Item>)
    ensures !Fails(items, CancelledByUser) && !Fails(items, JobFailed)
  {
  }

  // ----- What of the converted stream is stored -----

  predicate OnlyEnds(tail: seq<Event>) {
    forall i | 0 <= i < |tail| :: tail[i].TextEnd? || tail[i].IsTerminal()
  }

  /** The stream is a prefix of the source, and what closes it. */
  predicate PrefixAndEnd(all: seq<Event>, source: seq<Event>, n: nat) {
    n <= |source| && n <= |all| && all[..n] == source[..n] && OnlyEnds(all[n..])
  }

  lemma PrefixHead(e: Event, all: seq<Event>, source: seq<Event>, n: nat)
    requires PrefixAndEnd(all, source, n)
    ensures PrefixAndEnd([e] + all, [e] + source, n + 1)
  {
    assert ([e] + all)[n + 1..] == all[n..];
    assert ([e] + all)[..n + 1] == [e] + all[..n] && ([e] + source)[..n + 1] == [e] + source[..n];
  }

  lemma EndsAlone(all: seq<Event>, source: seq<Event>)
    requires OnlyEnds(all)
    ensures PrefixAndEnd(all, source, 0)
  {
    assert all[0..] == all && all[..0] == source[..0];
  }

  /** The merged stream forwards the converted one up to some point. */
  lemma {:induction false} MergedIsPrefix(source: seq<Event>, open: bool, arrival: Option<nat>, ok: bool, m: MessageId)
    returns (n: nat)
    ensures PrefixAndEnd(Merged(source, open, arrival, ok, m), source, n)
    decreases |source|, arrival.Some?
  {
    n := 0;
    if arrival == Some(0) {
      if ok {
        n := MergedIsPrefix(source, open, None, ok, m);
      } else {
        EndsAlone(JobFailure(open, m), source);
      }
    } else if source == [] {
      EndsAlone(LateFailure(open, arrival, ok, m), source);
    } else if source[0].RunError? {
      EndsAlone(Merged(source, open, arrival, ok, m), source);
    } else {
      var rest := Merged(source[1..], OpenAfter(open, source[0]), Earlier(arrival), ok, m);
      n := MergedIsPrefix(source[1..], OpenAfter(open, source[0]), Earlier(arrival), ok, m);
      PrefixHead(source[0], rest, source[1..], n);
      assert source == [source[0]] + source[1..];
      n := n + 1;
    }
  }

  /** All of it is forwarded when nothing fails. */
  lemma {:induction false} MergedIsWhole(source: seq<Event>, open: bool, arrival: Option<nat>, ok: bool, m: MessageId)
    requires FirstError(source) == |source| && (arrival.Some? ==> ok)
    ensures Merged(source, open, arrival, ok, m) == source
    decreases |source|, arrival.Some?
  {
    if arrival == Some(0) {
      MergedIsWhole(source, open, None, ok, m);
    } else if source != [] {
      MergedIsWhole(source[1..], OpenAfter(open, source[0]), Earlier(arrival), ok, m);
    }
  }

  lemma {:induction false} ProducedIsPrefix(source: seq<Event>, cut: Option<nat>, open: Option<MessageId>)
    returns (n: nat)
    ensures PrefixAndEnd(Produced(source, cut, open), source, n)
    ensures !CancelFirst(source, cut) && FirstTerminal(source) == |source| ==> n == |source|
    ensures CancelFirst(source, cut) ==> n == cut.value
    decreases |source|
  {
    n := 0;
    if cut != Some(0) && source != [] {
      if source[0].IsTerminal() {
        n := 1;
        assert [source[0]][1..] == [];
      } else {
        var rest := Produced(source[1..], Earlier(cut), NowOpen(open, source[0]));
        n := ProducedIsPrefix(source[1..], Earlier(cut), NowOpen(open, source[0]));
        PrefixHead(source[0], rest, source[1..], n);
        assert source == [source[0]] + source[1..];
        n := n + 1;
      }
    }
  }

  lemma PrefixOfPrefix(all: seq<Event>, mid: seq<Event>, source: seq<Event>, n: nat, k: nat)
    requires PrefixAndEnd(all, mid, n) && PrefixAndEnd(mid, source, k)
    ensures PrefixAndEnd(all, source, if n < k then n else k)
  {
    var l := if n < k then n else k;
    forall i | l <= i < |all| ensures all[i].TextEnd? || all[i].IsTerminal() {
      if i >= n {
        assert all[n..][i - n] == all[i];
      } else {
        assert all[..n][i] == mid[..n][i] && mid[k..][i - k] == mid[i];
      }
    }
    assert all[..l] == all[..n][..l] && mid[..n][..l] == mid[..l] == mid[..k][..l] && source[..k][..l] == source[..l];
  }

  lemma {:induction false} EndsAreQuiet(tail: seq<Event>)
    requires OnlyEnds(tail)
    ensures Deltas(tail) == "" && ToolEvents(tail) == []
    decreases tail
  {
    if tail != [] {
      EndsAreQuiet(tail[1..]);
    }
  }

  /**
   What is stored after RUN_STARTED is a prefix of the converted stream and what closes it, so its text and
   its tool events are prefixes of the worker's; all of it is stored when the run finished.
   */
  lemma StoredIsPrefix(items: seq<Item>, arrival: nat, ok: bool, cut: Option<nat>, m: MessageId) returns (n: nat)
    ensures var converted, source := Converted(items, "", {}, false, m), Source(items, arrival, ok, m);
      && PrefixAndEnd(Produced(source, cut, None), converted, n)
      && Deltas(Trace(source, cut)) == Deltas(converted[..n])
      && ToolEvents(Trace(source, cut)) == ToolEvents(converted[..n])
      && (Ending(source, cut) == RunFinished ==> n == |converted|)
  {
    var converted, source := Converted(items, "", {}, false, m), Source(items, arrival, ok, m);
    var k := MergedIsPrefix(converted, false, Some(arrival), ok, m);
    n := ProducedIsPrefix(source, cut, None);
    var body, error := ErrorIsSingleAndLast(items, m);
    ConvertedEnd(converted, body, error);
    MergedEnd(converted, false, Some(arrival), ok, m);
    if Ending(source, cut) == RunFinished {
      MergedIsWhole(converted, false, Some(arrival), ok, m);
      k := |converted|;
      assert PrefixAndEnd(source, converted, k);
    }
    PrefixOfPrefix(Produced(source, cut, None), source, converted, n, k);
    n := if n < k then n else k;
    TraceSplits(source, cut, converted, n);
  }

  lemma TraceSplits(source: seq<Event>, cut: Option<nat>, converted: seq<Event>, n: nat)
    requires PrefixAndEnd(Produced(source, cut, None), converted, n)
    ensures Deltas(Trace(source, cut)) == Deltas(converted[..n])
    ensures ToolEvents(Trace(source, cut)) == ToolEvents(converted[..n])
  {
    var all := Produced(source, cut, None);
    assert all == all[..n] + all[n..];
    EndsAreQuiet(all[n..]);
    DeltasConcat([RunStarted], all);
    DeltasConcat(all[..n], all[n..]);
    ToolEventsConcat([RunStarted], all);
    ToolEventsConcat(all[..n], all[n..]);
  }

  /** The stored text is a prefix of the worker's text, and all of it when the run finished. */
  lemma StoredText(items: seq<Item>, arrival: nat, ok: bool, cut: Option<nat>, m: MessageId)
    ensures var source := Source(items, arrival, ok, m);
      && Deltas(Trace(source, cut)) <= Text(Accepted(items, ""), "")
      && (Ending(source, cut) == RunFinished ==> Deltas(Trace(source, cut)) == Text(Accepted(items, ""), ""))
  {
    var n := StoredIsPrefix(items, arrival, ok, cut, m);
    var converted := Converted(items, "", {}, false, m);
    DeltasAreTheText(items, "", {}, false, m);
    assert "" + Deltas(converted) == Deltas(converted);
    assert converted == converted[..n] + converted[n..];
    DeltasConcat(converted[..n], converted[n..]);
  }

  /** The stored tool events are a prefix of the worker's calls as triples, and all of them when it finished. */
  lemma StoredTools(items: seq<Item>, arrival: nat, ok: bool, cut: Option<nat>, m: MessageId)
    ensures var source, calls := Source(items, arrival, ok, m), Calls(Accepted(items, ""));
      var triples := Triples(FirstOccurrences(calls, |calls|));
      && ToolEvents(Trace(source, cut)) <= triples
      && (Ending(source, cut) == RunFinished ==> ToolEvents(Trace(source, cut)) == triples)
  {
    var n := StoredIsPrefix(items, arrival, ok, cut, m);
    var converted := Converted(items, "", {}, false, m);
    ToolsAreFresh(items, "", {}, false, m);
    FreshAreFirst(Calls(Accepted(items, "")));
    assert converted == converted[..n] + converted[n..];
    ToolEventsConcat(converted[..n], converted[n..]);
  }
}
