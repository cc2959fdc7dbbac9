/**
 One direct run from its registration on: its producer, the watcher that deregisters it, and any number
 of concurrent DELETE requests. Every await is a point where another party may act, and a request may be
 dropped at any moment.
 */
module DirectRuns {
  import opened Base
  import opened RunEvents
  import opened DirectConvert
  import opened DirectPipeline

  type RequestId(==, !new)

  /**
   How far the producer, and after it the watcher, has come. While `Running` it waits for the next event or
   for a cancel; while `Storing` it has taken an event that the store does not have yet.
   */
  datatype Stage =
    | Starting
    | Running(taken: nat, open: Option<MessageId>)
    | Storing(taken: nat, open: Option<MessageId>)
    | RanOut
    | Stopping(taken: nat, open: Option<MessageId>)
    | StoredTerminal(state: SessionState)
    | Finished
    | Removed
    | Released
  {
    predicate Registered() { !Removed? && !Released? }
    /** The terminal event is stored. */
    predicate Over() { StoredTerminal? || Finished? || Removed? || Released? }
    /** The session's final state is set. */
    predicate StateSet() { Finished? || Removed? || Released? }
  }

  /** How far a DELETE request has come. `Found` and `NothingToDo` are its successful returns. */
  datatype Request = Looking | Deleting | Signalling | Waiting | Found | DeleteFailed
                   | Missed | NothingToDo | Marking | Writing | Written

  datatype Run = Run(
    source: seq<Event>, stage: Stage, stored: seq<Event>, session: SessionState,
    cancelled: bool, requests: map<RequestId, Request>)

  predicate Init(s: Run) {
    s.stage == Starting && s.stored == [] && !s.session.IsTerminal() && !s.cancelled && s.requests == map[]
  }

  datatype ProducerStep = Start | Take | Store | SeeEnd | SeeCancel | CloseText | StoreCancelled | StoreFinished
                        | SetState | Deregister | Settle

  datatype RequestStep = Arrive | LookUp | Delete(ok: bool) | Signal | Wake | ReadSession | Mark | Write | Drop

  datatype Step = Producer(p: ProducerStep) | Cancel(id: RequestId, r: RequestStep)

  /** The select is biased: once the cancel token has fired, the producer sees that and nothing else. */
  predicate ProducerEnabled(s: Run, step: ProducerStep) {
    match step
    case Start => s.stage.Starting?
    case Take => s.stage.Running? && s.stage.taken < |s.source| && !s.cancelled
    case Store => s.stage.Storing? && s.stage.taken < |s.source|
    case SeeEnd => s.stage.Running? && s.stage.taken >= |s.source| && !s.cancelled
    case SeeCancel => s.stage.Running? && s.cancelled
    case CloseText => s.stage.Stopping? && s.stage.open.Some?
    case StoreCancelled => s.stage.Stopping? && s.stage.open.None?
    case StoreFinished => s.stage.RanOut?
    case SetState => s.stage.StoredTerminal?
    case Deregister => s.stage.Finished?
    case Settle => s.stage.Removed?
  }

  function AfterProducer(s: Run, step: ProducerStep): Run
    requires ProducerEnabled(s, step)
  {
    match step
    case Start => s.(stage := Running(0, None), stored := s.stored + [RunStarted])
    case Take => s.(stage := Storing(s.stage.taken, s.stage.open))
    case Store =>
      var e := s.source[s.stage.taken];
      s.(stage := if e.IsTerminal() then StoredTerminal(if e.RunFinished? then Completed else Error)
                  else Running(s.stage.taken + 1, NowOpen(s.stage.open, e)),
         stored := s.stored + [e])
    case SeeEnd => s.(stage := RanOut)
    case SeeCancel => s.(stage := Stopping(s.stage.taken, s.stage.open))
    case CloseText => s.(stage := Stopping(s.stage.taken, None), stored := s.stored + [TextEnd(s.stage.open.value)])
    case StoreCancelled => s.(stage := StoredTerminal(Cancelled), stored := s.stored + [RunError(CancelledByUser)])
    case StoreFinished => s.(stage := StoredTerminal(Completed), stored := s.stored + [RunFinished])
    case SetState => s.(stage := Finished, session := s.stage.state)
    case Deregister => s.(stage := Removed)
    case Settle => s.(stage := Released)
  }

  predicate RequestEnabled(s: Run, id: RequestId, step: RequestStep) {
    match step
    case Arrive => id !in s.requests
    case LookUp => id in s.requests && s.requests[id] == Looking
    case Delete(_) => id in s.requests && s.requests[id] == Deleting
    case Signal => id in s.requests && s.requests[id] == Signalling
    case Wake => id in s.requests && s.requests[id] == Waiting && s.stage.Released?
    case ReadSession => id in s.requests && s.requests[id] == Missed
    case Mark => id in s.requests && s.requests[id] == Marking
    case Write => id in s.requests && s.requests[id] == Writing
    case Drop => id in s.requests
  }

  function AfterRequest(s: Run, id: RequestId, step: RequestStep): Run
    requires RequestEnabled(s, id, step)
  {
    match step
    case Arrive => s.(requests := s.requests[id := Looking])
    case LookUp => s.(requests := s.requests[id := if s.stage.Registered() then Deleting else Missed])
    case Delete(ok) => s.(requests := s.requests[id := if ok then Signalling else DeleteFailed])
    case Signal => s.(cancelled := true, requests := s.requests[id := Waiting])
    case Wake => s.(requests := s.requests[id := Found])
    case ReadSession => s.(requests := s.requests[id := if s.session.IsTerminal() then NothingToDo else Marking])
    case Mark => s.(session := Cancelled, requests := s.requests[id := Writing])
    case Write => s.(stored := s.stored + [RunError(CancelledByUser)], requests := s.requests[id := Written])
    case Drop => s.(requests := s.requests - {id})
  }

  predicate Enabled(s: Run, step: Step) {
    match step
    case Producer(p) => ProducerEnabled(s, p)
    case Cancel(id, r) => RequestEnabled(s, id, r)
  }

  function Apply(s: Run, step: Step): Run
    requires Enabled(s, step)
  {
    match step
    case Producer(p) => AfterProducer(s, p)
    case Cancel(id, r) => AfterRequest(s, id, r)
  }

  // ----- Invariant -----

  function OpenIn(open: Option<MessageId>, events: seq<Event>): Option<MessageId>
    decreases events
  {
    if events == [] then open else OpenIn(NowOpen(open, events[0]), events[1..])
  }

  predicate Quiet(source: seq<Event>, n: nat) {
    n <= |source| && forall i | 0 <= i < n :: !source[i].IsTerminal()
  }

  function Close(open: Option<MessageId>): seq<Event> {
    if open.Some? then [TextEnd(open.value)] else []
  }

  ghost predicate IsTrace(source: seq<Event>, stored: seq<Event>, state: SessionState) {
    exists cut :: stored == Trace(source, cut) && state == FinalState(source, cut)
  }

  /** The store holds what the producer has put there, and nothing else. */
  ghost predicate StoreInv(source: seq<Event>, stage: Stage, stored: seq<Event>, session: SessionState) {
    match stage
    case Starting => stored == []
    case Running(taken, open) =>
      Quiet(source, taken) && open == OpenIn(None, source[..taken]) && stored == [RunStarted] + source[..taken]
    case Storing(taken, open) =>
      && taken < |source| && Quiet(source, taken) && open == OpenIn(None, source[..taken])
      && stored == [RunStarted] + source[..taken]
    case RanOut => Quiet(source, |source|) && stored == [RunStarted] + source
    case Stopping(taken, open) =>
      && Quiet(source, taken)
      && stored + Close(open) == [RunStarted] + source[..taken] + Close(OpenIn(None, source[..taken]))
    case StoredTerminal(state) => IsTrace(source, stored, state)
    case _ => IsTrace(source, stored, session) && session.IsTerminal()
  }

  predicate RequestInv(stage: Stage, cancelled: bool, r: Request) {
    && (r.Waiting? || r.Found? ==> cancelled)
    && !r.Marking? && !r.Writing? && !r.Written?
    && (r.Missed? || r.NothingToDo? ==> !stage.Registered())
    && (r.Found? ==> stage.Released?)
  }

  ghost predicate Inv(s: Run) {
    && StoreInv(s.source, s.stage, s.stored, s.session)
    && forall id | id in s.requests :: RequestInv(s.stage, s.cancelled, s.requests[id])
  }

  // ----- The producer stores a trace -----

  /** Quiet events are stored as they come; what follows them depends on the rest of the source only. */
  lemma {:induction false} ProducedUpTo(source: seq<Event>, n: nat, cut: Option<nat>, open: Option<MessageId>)
    requires Quiet(source, n) && (cut.Some? ==> n <= cut.value)
    ensures var left := if cut.Some? then Some(cut.value - n) else None;
      Produced(source, cut, open) == source[..n] + Produced(source[n..], left, OpenIn(open, source[..n]))
    ensures var left := if cut.Some? then Some(cut.value - n) else None;
      FinalState(source, cut) == FinalState(source[n..], left)
    decreases n
  {
    if n == 0 {
      assert source[0..] == source && source[..0] == [];
    } else {
      assert !source[0].IsTerminal();
      ProducedUpTo(source[1..], n - 1, Earlier(cut), NowOpen(open, source[0]));
      assert source[..n][1..] == source[1..][..n - 1];
      assert source[1..][n - 1..] == source[n..];
      assert source[..n] == [source[0]] + source[1..][..n - 1];
    }
  }

  lemma {:induction false} OpenInSplits(open: Option<MessageId>, xs: seq<Event>, e: Event)
    ensures OpenIn(open, xs + [e]) == NowOpen(OpenIn(open, xs), e)
    decreases xs
  {
    if xs == [] {
      assert xs + [e] == [e];
    } else {
      assert (xs + [e])[1..] == xs[1..] + [e];
      OpenInSplits(NowOpen(open, xs[0]), xs[1..], e);
    }
  }

  lemma StoreKeeps(s: Run)
    requires ProducerEnabled(s, Store) && StoreInv(s.source, s.stage, s.stored, s.session)
    ensures var s' := AfterProducer(s, Store); StoreInv(s'.source, s'.stage, s'.stored, s'.session)
  {
    var n, e := s.stage.taken, s.source[s.stage.taken];
    assert s.source[..n + 1] == s.source[..n] + [e];
    if e.IsTerminal() {
      ProducedUpTo(s.source, n, None, None);
      assert s.stored + [e] == Trace(s.source, None);
    } else {
      OpenInSplits(None, s.source[..n], e);
    }
  }

  lemma FinishKeeps(s: Run)
    requires ProducerEnabled(s, StoreFinished) && StoreInv(s.source, s.stage, s.stored, s.session)
    ensures IsTrace(s.source, s.stored + [RunFinished], Completed)
  {
    ProducedUpTo(s.source, |s.source|, None, None);
    assert s.source[..|s.source|] == s.source;
    assert s.stored + [RunFinished] == Trace(s.source, None);
  }

  lemma StoreCancelledIs(s: Run)
    requires ProducerEnabled(s, StoreCancelled) && StoreInv(s.source, s.stage, s.stored, s.session)
    ensures s.stored + [RunError(CancelledByUser)] == Trace(s.source, Some(s.stage.taken))
  {
    var n := s.stage.taken;
    ProducedUpTo(s.source, n, Some(n), None);
    assert s.stored == [RunStarted] + s.source[..n] + Close(OpenIn(None, s.source[..n]));
  }

  lemma CancelKeeps(s: Run)
    requires ProducerEnabled(s, StoreCancelled) && StoreInv(s.source, s.stage, s.stored, s.session)
    ensures IsTrace(s.source, s.stored + [RunError(CancelledByUser)], Cancelled)
  {
    StoreCancelledIs(s);
    ProducedUpTo(s.source, s.stage.taken, Some(s.stage.taken), None);
  }

  lemma {:induction false} FinalStateIsTerminal(source: seq<Event>, cut: Option<nat>)
    ensures FinalState(source, cut).IsTerminal()
    decreases |source|
  {
    if cut != Some(0) && source != [] && !source[0].IsTerminal() {
      FinalStateIsTerminal(source[1..], Earlier(cut));
    }
  }

  /** The session state is the one that goes with the terminal event that was stored. */
  lemma {:induction false} StateAgreesWithTerminal(source: seq<Event>, cut: Option<nat>, open: Option<MessageId>)
    ensures var events := Produced(source, cut, open);
      && |events| > 0 && events[|events| - 1] == Ending(source, cut)
      && (FinalState(source, cut) == Completed <==> Ending(source, cut) == RunFinished)
      && (FinalState(source, cut) == Cancelled <==> CancelFirst(source, cut))
      && (FinalState(source, cut) == Error <==> !CancelFirst(source, cut) && Ending(source, cut).RunError?)
    decreases |source|
  {
    if cut != Some(0) && source != [] && !source[0].IsTerminal() {
      StateAgreesWithTerminal(source[1..], Earlier(cut), NowOpen(open, source[0]));
    }
  }

  lemma ProducerKeepsStore(s: Run, step: ProducerStep)
    requires ProducerEnabled(s, step) && StoreInv(s.source, s.stage, s.stored, s.session)
    ensures var s' := AfterProducer(s, step); StoreInv(s'.source, s'.stage, s'.stored, s'.session)
  {
    match step
    case Store => StoreKeeps(s);
    case StoreFinished => FinishKeeps(s);
    case StoreCancelled => CancelKeeps(s);
    case SetState =>
      var cut :| s.stored == Trace(s.source, cut) && s.stage.state == FinalState(s.source, cut);
      FinalStateIsTerminal(s.source, cut);
    case SeeEnd => assert s.source[..|s.source|] == s.source;
    case _ =>
  }

  lemma ProducerKeepsRequests(s: Run, step: ProducerStep)
    requires ProducerEnabled(s, step) && Inv(s)
    ensures var s' := AfterProducer(s, step);
      forall id | id in s'.requests :: RequestInv(s'.stage, s'.cancelled, s'.requests[id])
  {
  }

  lemma RequestKeeps(s: Run, id: RequestId, step: RequestStep)
    requires RequestEnabled(s, id, step) && Inv(s)
    ensures Inv(AfterRequest(s, id, step))
    ensures AfterRequest(s, id, step).stored == s.stored
    ensures AfterRequest(s, id, step).session == s.session
  {
    assert step.ReadSession? ==> RequestInv(s.stage, s.cancelled, s.requests[id]);
    assert step.Mark? || step.Write? ==> RequestInv(s.stage, s.cancelled, s.requests[id]);
  }

  lemma StepKeeps(s: Run, step: Step)
    requires Enabled(s, step) && Inv(s)
    ensures Inv(Apply(s, step)) && Apply(s, step).source == s.source
    ensures s.stage.Over() ==> Apply(s, step).stage.Over() && Apply(s, step).stored == s.stored
  {
    match step
    case Producer(p) =>
      ProducerKeepsStore(s, p);
      ProducerKeepsRequests(s, p);
    case Cancel(id, r) => RequestKeeps(s, id, r);
  }

  // ----- Whole runs -----

  predicate IsRun(states: seq<Run>, steps: seq<Step>) {
    && |states| == |steps| + 1 && Init(states[0])
    && forall i | 0 <= i < |steps| :: Enabled(states[i], steps[i]) && states[i + 1] == Apply(states[i], steps[i])
  }

  lemma {:induction false} RunKeeps(states: seq<Run>, steps: seq<Step>, k: nat)
    requires IsRun(states, steps) && k < |states|
    ensures Inv(states[k]) && states[k].source == states[0].source
  {
    if k > 0 {
      RunKeeps(states, steps, k - 1);
      StepKeeps(states[k - 1], steps[k - 1]);
    }
  }

  /** Once the terminal event is stored, nobody stores anything after it. */
  lemma {:induction false} NothingFollowsTheTerminal(states: seq<Run>, steps: seq<Step>, i: nat, k: nat)
    requires IsRun(states, steps) && i <= k < |states| && states[i].stage.Over()
    ensures states[k].stage.Over() && states[k].stored == states[i].stored
  {
    if i < k {
      NothingFollowsTheTerminal(states, steps, i, k - 1);
      RunKeeps(states, steps, k - 1);
      StepKeeps(states[k - 1], steps[k - 1]);
    }
  }

  /** A finished producer has stored a whole trace, whatever the requests did meanwhile. */
  lemma StoresATrace(states: seq<Run>, steps: seq<Step>, k: nat)
    requires IsRun(states, steps) && k < |states|
    ensures states[k].stage.Over() ==> exists cut :: states[k].stored == Trace(states[0].source, cut)
    ensures !states[k].stage.Over() ==> forall e | e in states[k].stored :: !e.IsTerminal()
  {
    RunKeeps(states, steps, k);
    var s := states[k];
    if s.stage.Stopping? {
      assert forall e | e in s.stored :: e in s.stored + Close(s.stage.open);
    }
  }

  /** A DELETE that found the run returns after the terminal is stored, the state set and the run removed. */
  lemma FoundReturnsAfterSettlement(states: seq<Run>, steps: seq<Step>, k: nat, id: RequestId)
    requires IsRun(states, steps) && k < |states|
    requires id in states[k].requests && states[k].requests[id].Found?
    ensures states[k].stage.Over() && states[k].session.IsTerminal() && !states[k].stage.Registered()
    ensures exists cut ::
      states[k].stored == Trace(states[0].source, cut) && states[k].session == FinalState(states[0].source, cut)
  {
    RunKeeps(states, steps, k);
    assert RequestInv(states[k].stage, states[k].cancelled, states[k].requests[id]);
  }

  /** No request ever writes: a DELETE that finds no registration leaves the store and the session alone. */
  lemma RequestsWriteNothing(states: seq<Run>, steps: seq<Step>, k: nat)
    requires IsRun(states, steps) && k < |steps| && steps[k].Cancel?
    ensures states[k + 1].stored == states[k].stored && states[k + 1].session == states[k].session
    ensures steps[k].r.ReadSession? ==> states[k + 1].requests[steps[k].id] == NothingToDo
  {
    RunKeeps(states, steps, k);
    RequestKeeps(states[k], steps[k].id, steps[k].r);
    assert steps[k].r.ReadSession? ==>
      RequestInv(states[k].stage, states[k].cancelled, states[k].requests[steps[k].id]);
  }

  // ----- Cancelling -----

  /** How many source events a run that is cancelled now still stores in all; `None` once it ends by itself. */
  function Point(s: Run): Option<nat> {
    match s.stage
    case Starting => Some(0)
    case Running(taken, _) => Some(taken)
    case Storing(taken, _) =>
      if taken < |s.source| && !s.source[taken].IsTerminal() then Some(taken + 1) else None
    case Stopping(taken, _) => Some(taken)
    case _ => None
  }

  /** The run has stored a cancelled trace with the first p source events, and its session follows. */
  predicate StoppedAt(s: Run, p: nat) {
    && s.stage.Over() && s.stored == Trace(s.source, Some(p))
    && (s.stage.StoredTerminal? ==> s.stage.state == Cancelled)
    && (s.stage.StateSet() ==> s.session == Cancelled)
  }

  lemma CancelledStep(s: Run, step: Step, p: nat)
    requires Inv(s) && Enabled(s, step) && s.cancelled
    requires Point(s) == Some(p) || StoppedAt(s, p)
    ensures Apply(s, step).cancelled && (Point(Apply(s, step)) == Some(p) || StoppedAt(Apply(s, step), p))
  {
    match step
    case Producer(q) =>
      if q.StoreCancelled? {
        StoreCancelledIs(s);
      }
    case Cancel(id, r) => RequestKeeps(s, id, r);
  }

  lemma {:induction false} CancelledRun(states: seq<Run>, steps: seq<Step>, i: nat, k: nat, p: nat)
    requires IsRun(states, steps) && i <= k < |states| && states[i].cancelled && Point(states[i]) == Some(p)
    ensures states[k].cancelled && (Point(states[k]) == Some(p) || StoppedAt(states[k], p))
  {
    if i < k {
      CancelledRun(states, steps, i, k - 1, p);
      RunKeeps(states, steps, k - 1);
      CancelledStep(states[k - 1], steps[k - 1], p);
    }
  }

  /**
   A run that is cancelled before it has taken its last event stores nothing more of its source, except an
   event it had already taken; it closes its text, reports the cancel, and its session ends `Cancelled`.
   */
  lemma CancelStops(states: seq<Run>, steps: seq<Step>, i: nat, k: nat)
    requires IsRun(states, steps) && i <= k < |states|
    requires states[i].cancelled && Point(states[i]).Some? && states[k].stage.Over()
    ensures var source, p := states[0].source, Point(states[i]).value;
      && p <= |source|
      && states[k].stored ==
           [RunStarted] + source[..p] + Close(OpenIn(None, source[..p])) + [RunError(CancelledByUser)]
      && (states[k].stage.StateSet() ==> states[k].session == Cancelled)
  {
    var p := Point(states[i]).value;
    RunKeeps(states, steps, i);
    RunKeeps(states, steps, k);
    CancelledRun(states, steps, i, k, p);
    PointIsQuiet(states[i]);
    var source := states[0].source;
    ProducedUpTo(source, p, Some(p), None);
    var closing := Close(OpenIn(None, source[..p]));
    assert Trace(source, Some(p)) == [RunStarted] + source[..p] + closing + [RunError(CancelledByUser)];
  }

  lemma PointIsQuiet(s: Run)
    requires Inv(s) && Point(s).Some?
    ensures Quiet(s.source, Point(s).value)
  {
  }

  lemma {:induction false} SignallingWasDeleted(states: seq<Run>, steps: seq<Step>, k: nat, id: RequestId)
    returns (deleted: nat)
    requires IsRun(states, steps) && k < |states| && id in states[k].requests && states[k].requests[id].Signalling?
    ensures deleted < k && steps[deleted] == Cancel(id, Delete(true))
  {
    if steps[k - 1] == Cancel(id, Delete(true)) {
      deleted := k - 1;
    } else {
      deleted := SignallingWasDeleted(states, steps, k - 1, id);
    }
  }

  lemma {:induction false} WaitingWasSignalled(states: seq<Run>, steps: seq<Step>, k: nat, id: RequestId)
    returns (signalled: nat)
    requires IsRun(states, steps) && k < |states| && id in states[k].requests
    requires states[k].requests[id].Waiting? || states[k].requests[id].Found?
    ensures signalled < k && steps[signalled] == Cancel(id, Signal) && states[signalled + 1].cancelled
  {
    if steps[k - 1] == Cancel(id, Signal) {
      signalled := k - 1;
    } else {
      signalled := WaitingWasSignalled(states, steps, k - 1, id);
    }
  }

  /**
   A DELETE that found the run has deleted its job and then fired its cancel token. If the producer had not
   taken its terminal event or seen the end of its source by then, the run is cancelled: the session is
   `Cancelled` and the store ends with that report.
   */
  lemma FoundIsCancelled(states: seq<Run>, steps: seq<Step>, k: nat, id: RequestId)
    returns (deleted: nat, signalled: nat)
    requires IsRun(states, steps) && k < |states|
    requires id in states[k].requests && states[k].requests[id].Found?
    ensures deleted < signalled < k
    ensures steps[deleted] == Cancel(id, Delete(true)) && steps[signalled] == Cancel(id, Signal)
    ensures Point(states[signalled]).Some? ==>
      && states[k].session == Cancelled && |states[k].stored| > 0
      && states[k].stored[|states[k].stored| - 1] == RunError(CancelledByUser)
  {
    signalled := WaitingWasSignalled(states, steps, k, id);
    deleted := SignallingWasDeleted(states, steps, signalled, id);
    FoundReturnsAfterSettlement(states, steps, k, id);
    if Point(states[signalled]).Some? {
      assert Point(states[signalled + 1]) == Point(states[signalled]);
      CancelStops(states, steps, signalled + 1, k);
    }
  }

  /** Nobody is cancelled without being asked: the token fires only for a request whose job was deleted. */
  lemma {:induction false} CancelledWasAsked(states: seq<Run>, steps: seq<Step>, k: nat) returns (i: nat)
    requires IsRun(states, steps) && k < |states| && states[k].cancelled
    ensures i < k && steps[i].Cancel? && steps[i].r.Signal?
  {
    if steps[k - 1].Cancel? && steps[k - 1].r.Signal? {
      i := k - 1;
    } else {
      i := CancelledWasAsked(states, steps, k - 1);
    }
  }

  /**
   End to end: a registered run over any items, any arrival of the job's outcome and any requests stores
   one well-formed trace. Its terminal event is the one that goes with the items, the job and the moment
   the cancel was seen, and its session state the one that goes with that event.
   */
  lemma RunStoresOneTerminal(
    states: seq<Run>, steps: seq<Step>, k: nat, items: seq<Item>, arrival: nat, ok: bool, m: MessageId)
    returns (body: seq<Event>, terminal: Event, cut: Option<nat>)
    requires IsRun(states, steps) && k < |states| && states[k].stage.Over()
    requires states[0].source == Source(items, arrival, ok, m)
    ensures states[k].stored == [RunStarted] + body + [terminal]
    ensures NoTerminal(body) && terminal.IsTerminal() && Settled(BracketAfter(Idle, body, m))
    ensures EndsWith(items, arrival, ok, cut, m, terminal)
    ensures !states[k].cancelled ==> terminal != RunError(CancelledByUser)
    ensures states[k].stage.StateSet() ==>
      && (states[k].session == Completed <==> terminal == RunFinished)
      && (states[k].session == Cancelled <==> terminal == RunError(CancelledByUser))
      && (states[k].session == Error <==> terminal.RunError? && terminal != RunError(CancelledByUser))
  {
    RunKeeps(states, steps, k);
    var s := states[k];
    var state := if s.stage.StoredTerminal? then s.stage.state else s.session;
    assert IsTrace(s.source, s.stored, state);
    cut :| s.stored == Trace(s.source, cut) && state == FinalState(s.source, cut);
    body, terminal := StoredTrace(items, arrival, ok, cut, m);
    StateAgreesWithTerminal(s.source, cut, None);
    assert s.stored[|s.stored| - 1] == terminal;
    if !s.cancelled {
      NotCancelled(states, steps, k);
    }
  }

  lemma {:induction false} NotCancelled(states: seq<Run>, steps: seq<Step>, k: nat)
    requires IsRun(states, steps) && k < |states| && !states[k].cancelled
    ensures !states[k].stage.Stopping? && (states[k].stage.StoredTerminal? ==> states[k].stage.state != Cancelled)
    ensures states[k].stage.StateSet() ==> states[k].session != Cancelled
  {
    if k > 0 {
      NotCancelled(states, steps, k - 1);
      RunKeeps(states, steps, k - 1);
      if steps[k - 1].Cancel? {
        RequestKeeps(states[k - 1], steps[k - 1].id, steps[k - 1].r);
      }
    }
  }
}
