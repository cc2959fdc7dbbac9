/**
 What a cancel request means for the rest of a run, and why a job that left the books has ended.
 Everything here is about whole runs of the ownership protocol.
 */
module CancelRuns {
  import opened Base
  import opened Tracker
  import opened JobOwnership
  import ResultWait
  import StreamCollect

  // ----- No job slips past a cancel -----

  /** A cancel has been accepted for the chat's current execution. */
  predicate Accepted(chats: Chats, chat: ChatId) {
    chat in chats && chats[chat].active && chats[chat].cancelRequested
  }

  /** The chat keeps the cancel, and any job new to it is born claimed. */
  ghost predicate Caught(chats: Chats, chats': Chats, chat: ChatId) {
    && Accepted(chats', chat)
    && forall j | Tracks(chats', chat, j) :: Tracks(chats, chat, j) || chats'[chat].jobs[j].cancelling
  }

  lemma StepTaken(states: seq<System>, steps: seq<Step>, k: nat)
    requires IsRun(states, steps) && k < |steps|
    ensures Enabled(states[k], steps[k]) && states[k + 1] == Apply(states[k], steps[k])
  {
    assert Enabled(states[k], steps[k]);
  }

  lemma ChatStepCaught(s: System, c: ChatId, step: ChatStep, chat: ChatId)
    requires ChatEnabled(s, c, step) && Accepted(s.chats, chat) && !(c == chat && step.Finish?)
    ensures Caught(s.chats, AfterChat(s, c, step).chats, chat)
  {
  }

  lemma WorkStepCaught(s: System, t: TaskId, step: WorkStep, chat: ChatId)
    requires WorkEnabled(s, t, step) && Accepted(s.chats, chat)
    ensures Caught(s.chats, AfterWork(s, t, step).chats, chat)
  {
  }

  lemma ClaimStepCaught(s: System, c: ChatId, step: ClaimStep, chat: ChatId)
    requires ClaimEnabled(s, c, step) && Accepted(s.chats, chat)
    ensures Caught(s.chats, AfterClaim(s, c, step).chats, chat)
  {
  }

  lemma CancelStepCaught(s: System, t: TaskId, step: CancelStep, chat: ChatId)
    requires CancelEnabled(s, t, step) && Accepted(s.chats, chat)
    ensures Caught(s.chats, AfterCancel(s, t, step).chats, chat)
  {
  }

  lemma StepCaught(s: System, step: Step, chat: ChatId)
    requires Enabled(s, step) && Accepted(s.chats, chat) && step != Chat(chat, Finish)
    ensures Caught(s.chats, Apply(s, step).chats, chat)
  {
    match step
    case Chat(c, chatStep) => ChatStepCaught(s, c, chatStep, chat);
    case Work(t, workStep) => WorkStepCaught(s, t, workStep, chat);
    case Claim(c, claimStep) => ClaimStepCaught(s, c, claimStep, chat);
    case Cancel(t, cancelStep) => CancelStepCaught(s, t, cancelStep, chat);
  }

  predicate MarkedAt(states: seq<System>, i: int, chat: ChatId, job: JobId) {
    0 <= i < |states| && Tracks(states[i].chats, chat, job) && states[i].chats[chat].jobs[job].cancelling
  }

  /**
   Once a cancel is accepted for an active execution, every job the chat tracks until that execution
   finishes has been under a cancellation since: it was already, this request claimed it, or it was
   born claimed. (A cancellation that fails gives its claim back; the next cancel can take it.)
   */
  lemma {:induction false} NoJobSlipsPast(
    states: seq<System>, steps: seq<Step>, a: nat, b: nat, chat: ChatId, job: JobId)
    requires IsRun(states, steps) && a < b < |states|
    requires steps[a].Claim? && steps[a].chat == chat && steps[a].claimStep.All?
    requires chat in states[a].chats && states[a].chats[chat].active
    requires forall i | a < i < b :: steps[i] != Chat(chat, Finish)
    ensures Accepted(states[b].chats, chat)
    ensures Tracks(states[b].chats, chat, job) ==> exists i :: a < i <= b && MarkedAt(states, i, chat, job)
  {
    if b == a + 1 {
      StepTaken(states, steps, a);
      assert states[b] == AfterClaim(states[a], chat, steps[a].claimStep);
      assert Tracks(states[b].chats, chat, job) ==> MarkedAt(states, b, chat, job);
    } else {
      NoJobSlipsPast(states, steps, a, b - 1, chat, job);
      StepCaught(states[b - 1], steps[b - 1], chat);
      if Tracks(states[b].chats, chat, job) && !Tracks(states[b - 1].chats, chat, job) {
        assert MarkedAt(states, b, chat, job);
      }
    }
  }

  // ----- A cancel between prepare and begin -----

  predicate CancelledAhead(chats: Chats, chat: ChatId) {
    && chat in chats && chats[chat].capability != ""
    && !chats[chat].active && chats[chat].prepared && chats[chat].cancelRequested
  }

  lemma ChatStepAhead(s: System, c: ChatId, step: ChatStep, chat: ChatId)
    requires ChatEnabled(s, c, step) && CancelledAhead(s.chats, chat) && FlagsInv(s.chats, s.executions)
    requires c == chat ==> step.Finish?
    ensures CancelledAhead(AfterChat(s, c, step).chats, chat)
  {
  }

  lemma WorkStepAhead(s: System, t: TaskId, step: WorkStep, chat: ChatId)
    requires WorkEnabled(s, t, step) && CancelledAhead(s.chats, chat)
    ensures CancelledAhead(AfterWork(s, t, step).chats, chat)
  {
  }

  lemma ClaimStepAhead(s: System, c: ChatId, step: ClaimStep, chat: ChatId)
    requires ClaimEnabled(s, c, step) && CancelledAhead(s.chats, chat)
    ensures CancelledAhead(AfterClaim(s, c, step).chats, chat)
  {
  }

  lemma CancelStepAhead(s: System, t: TaskId, step: CancelStep, chat: ChatId)
    requires CancelEnabled(s, t, step) && CancelledAhead(s.chats, chat)
    ensures CancelledAhead(AfterCancel(s, t, step).chats, chat)
  {
  }

  lemma StepAhead(s: System, step: Step, chat: ChatId)
    requires Enabled(s, step) && CancelledAhead(s.chats, chat) && FlagsInv(s.chats, s.executions)
    requires step.Chat? && step.chat == chat ==> step.chatStep.Finish?
    ensures CancelledAhead(Apply(s, step).chats, chat)
  {
    match step
    case Chat(c, chatStep) => ChatStepAhead(s, c, chatStep, chat);
    case Work(t, workStep) => WorkStepAhead(s, t, workStep, chat);
    case Claim(c, claimStep) => ClaimStepAhead(s, c, claimStep, chat);
    case Cancel(t, cancelStep) => CancelStepAhead(s, t, cancelStep, chat);
  }

  /**
   A cancel taken while the chat is only prepared makes the next begin fail with `Cancelled`, unless
   the chat is prepared anew in between.
   */
  lemma {:induction false} PreparedCancelStopsBegin(
    states: seq<System>, steps: seq<Step>, a: nat, b: nat, chat: ChatId, issue: Option<string>)
    requires IsRun(states, steps) && a < b < |states|
    requires steps[a].Claim? && steps[a].chat == chat && steps[a].claimStep.All?
    requires chat in states[a].chats && states[a].chats[chat].prepared && !states[a].chats[chat].active
    requires forall i | a < i < b :: steps[i].Chat? && steps[i].chat == chat ==> steps[i].chatStep.Finish?
    ensures CancelledAhead(states[b].chats, chat)
    ensures AfterBegin(states[b].chats, chat, issue).1 == Err(Cancelled)
  {
    if b == a + 1 {
      StepTaken(states, steps, a);
      assert states[b] == AfterClaim(states[a], chat, steps[a].claimStep);
    } else {
      PreparedCancelStopsBegin(states, steps, a, b - 1, chat, issue);
      RunKeeps(states, steps, b - 1);
      StepAhead(states[b - 1], steps[b - 1], chat);
    }
  }

  /** In every reachable state a cancel belongs to an execution or a preparation, and a chat has not both. */
  lemma FlagsInEveryRun(states: seq<System>, steps: seq<Step>, k: nat, chat: ChatId)
    requires IsRun(states, steps) && k < |states| && chat in states[k].chats
    ensures var entry := states[k].chats[chat];
      && (entry.cancelRequested ==> entry.active || entry.prepared)
      && !(entry.active && entry.prepared)
      && (entry.active <==> chat in states[k].executions)
  {
    RunKeeps(states, steps, k);
  }

  // ----- Ownership ends only with evidence -----

  /** The job is past its entry into the tracker. */
  predicate Entered(s: System, job: JobId) {
    job in s.issued && forall t | t in s.tasks :: s.tasks[t].job == job ==> !s.tasks[t].Inserted?
  }

  lemma ChatStepEntered(s: System, c: ChatId, step: ChatStep, job: JobId)
    requires ChatEnabled(s, c, step) && Entered(s, job)
    ensures Entered(AfterChat(s, c, step), job)
  {
  }

  lemma WorkStepEntered(s: System, t: TaskId, step: WorkStep, job: JobId)
    requires WorkEnabled(s, t, step) && Entered(s, job)
    ensures Entered(AfterWork(s, t, step), job)
  {
  }

  lemma ClaimStepEntered(s: System, c: ChatId, step: ClaimStep, job: JobId)
    requires ClaimEnabled(s, c, step) && Entered(s, job)
    ensures Entered(AfterClaim(s, c, step), job)
  {
  }

  lemma CancelStepEntered(s: System, t: TaskId, step: CancelStep, job: JobId)
    requires CancelEnabled(s, t, step) && Entered(s, job)
    ensures Entered(AfterCancel(s, t, step), job)
  {
  }

  lemma StepEntered(s: System, step: Step, job: JobId)
    requires Enabled(s, step) && Entered(s, job)
    ensures Entered(Apply(s, step), job)
  {
    match step
    case Chat(c, chatStep) => ChatStepEntered(s, c, chatStep, job);
    case Work(t, workStep) => WorkStepEntered(s, t, workStep, job);
    case Claim(c, claimStep) => ClaimStepEntered(s, c, claimStep, job);
    case Cancel(t, cancelStep) => CancelStepEntered(s, t, cancelStep, job);
  }

  lemma {:induction false} EnteredStays(states: seq<System>, steps: seq<Step>, a: nat, b: nat, job: JobId)
    requires IsRun(states, steps) && a <= b < |states| && Entered(states[a], job)
    ensures Entered(states[b], job)
  {
    if a < b {
      EnteredStays(states, steps, a, b - 1, job);
      StepEntered(states[b - 1], steps[b - 1], job);
    }
  }

  /** A running execution reads the kind of output its job has. */
  predicate InputsFit(tasks: Tasks) {
    forall t | t in tasks && tasks[t].Running? :: tasks[t].input.Polls? <==> tasks[t].kind.Model?
  }

  lemma WorkStepInputs(s: System, t: TaskId, step: WorkStep)
    requires WorkEnabled(s, t, step) && InputsFit(s.tasks)
    ensures InputsFit(AfterWork(s, t, step).tasks)
  {
  }

  lemma ClaimStepInputs(s: System, c: ChatId, step: ClaimStep)
    requires ClaimEnabled(s, c, step) && InputsFit(s.tasks)
    ensures InputsFit(AfterClaim(s, c, step).tasks)
  {
  }

  lemma CancelStepInputs(s: System, t: TaskId, step: CancelStep)
    requires CancelEnabled(s, t, step) && InputsFit(s.tasks)
    ensures InputsFit(AfterCancel(s, t, step).tasks)
  {
  }

  lemma {:induction false} RunInputs(states: seq<System>, steps: seq<Step>, k: nat)
    requires IsRun(states, steps) && k < |states|
    ensures InputsFit(states[k].tasks)
  {
    if k > 0 {
      RunInputs(states, steps, k - 1);
      StepTaken(states, steps, k - 1);
      match steps[k - 1]
      case Chat(c, chatStep) =>
      case Work(t, workStep) => WorkStepInputs(states[k - 1], t, workStep);
      case Claim(c, claimStep) => ClaimStepInputs(states[k - 1], c, claimStep);
      case Cancel(t, cancelStep) => CancelStepInputs(states[k - 1], t, cancelStep);
    }
  }

  /**
   The step sees the job's end: a Delete of it that was in flight is confirmed, or the execution that read
   its output meets the end of that output. A model's stream was framed then, chunks and one successful END;
   a worker's only read was a result that matches the job, its worker and its method.
   */
  predicate SeesEnd(s: System, step: Step, job: JobId, evidence: Evidence) {
    match evidence
    case DeleteConfirmed =>
      && step.Cancel? && step.cancelStep.Confirm? && step.t in s.tasks
      && Deletes(s.tasks[step.t]) && s.tasks[step.t].job == job
    case OutputEnded(input) =>
      && step.Work? && step.workStep.Complete? && step.t in s.tasks && s.tasks[step.t].Running?
      && s.tasks[step.t].job == job && s.tasks[step.t].input == input
      && job in s.targets
      && (if s.tasks[step.t].kind.Model? then input.Polls? && StreamCollect.Framed(input.polls)
          else input.Results? && ResultWait.Concluded(input.results, job, s.targets[job]))
  }

  /** Evidence is written by the step that sees it, and by no other. */
  lemma StepEvidence(s: System, step: Step, job: JobId)
    requires Enabled(s, step) && InputsFit(s.tasks) && job in Apply(s, step).ended
    ensures (job in s.ended && Apply(s, step).ended[job] == s.ended[job])
      || SeesEnd(s, step, job, Apply(s, step).ended[job])
  {
    match step
    case Chat(c, chatStep) => ChatStepIssued(s, c, chatStep);
    case Work(t, workStep) => WorkStepEvidence(s, t, workStep, job);
    case Claim(c, claimStep) => ClaimStepIssued(s, c, claimStep);
    case Cancel(t, cancelStep) => CancelStepEvidence(s, t, cancelStep, job);
  }

  lemma WorkStepEvidence(s: System, t: TaskId, step: WorkStep, job: JobId)
    requires WorkEnabled(s, t, step) && InputsFit(s.tasks) && job in AfterWork(s, t, step).ended
    ensures (job in s.ended && AfterWork(s, t, step).ended[job] == s.ended[job])
      || SeesEnd(s, Work(t, step), job, AfterWork(s, t, step).ended[job])
  {
  }

  lemma CancelStepEvidence(s: System, t: TaskId, step: CancelStep, job: JobId)
    requires CancelEnabled(s, t, step) && job in AfterCancel(s, t, step).ended
    ensures (job in s.ended && AfterCancel(s, t, step).ended[job] == s.ended[job])
      || SeesEnd(s, Cancel(t, step), job, AfterCancel(s, t, step).ended[job])
  {
  }

  /** In every run the evidence for a job's end was seen by an earlier step. */
  lemma {:induction false} EvidenceWasSeen(states: seq<System>, steps: seq<Step>, k: nat, job: JobId) returns (i: nat)
    requires IsRun(states, steps) && k < |states| && job in states[k].ended
    ensures i < k && SeesEnd(states[i], steps[i], job, states[k].ended[job])
  {
    RunInputs(states, steps, k - 1);
    StepEvidence(states[k - 1], steps[k - 1], job);
    if job in states[k - 1].ended && states[k].ended[job] == states[k - 1].ended[job] {
      i := EvidenceWasSeen(states, steps, k - 1, job);
    } else {
      i := k - 1;
    }
  }

  /**
   A job that the tracker or an executor owned at one moment and does not own at a later one has ended: some
   step before that moment saw its Delete confirmed or its output end, as `SeesEnd` says.
   */
  lemma OwnershipEndsWithEvidence(
    states: seq<System>, steps: seq<Step>, a: nat, b: nat, chat: ChatId, job: JobId) returns (i: nat)
    requires IsRun(states, steps) && a <= b < |states|
    ensures (Tracks(states[a].chats, chat, job) && !Tracks(states[b].chats, chat, job))
      || (job in states[a].owned && job !in states[b].owned)
      ==> job in states[b].ended && i < b && SeesEnd(states[i], steps[i], job, states[b].ended[job])
  {
    i := 0;
    LostJobHasEnded(states, steps, a, b, chat, job);
    if job in states[b].ended {
      i := EvidenceWasSeen(states, steps, b, job);
    }
  }

  lemma LostJobHasEnded(states: seq<System>, steps: seq<Step>, a: nat, b: nat, chat: ChatId, job: JobId)
    requires IsRun(states, steps) && a <= b < |states|
    ensures Tracks(states[a].chats, chat, job) && !Tracks(states[b].chats, chat, job) ==> job in states[b].ended
    ensures job in states[a].owned && job !in states[b].owned ==> job in states[b].ended
  {
    RunKeeps(states, steps, a);
    RunKeeps(states, steps, b);
    IssuedStays(states, steps, a, b, job);
    var v :| JobInv(states[a], v);
    var w :| JobInv(states[b], w);
    if Tracks(states[a].chats, chat, job) {
      assert Entered(states[a], job);
      EnteredStays(states, steps, a, b, job);
    }
  }

  lemma WorkStepIssued(s: System, t: TaskId, step: WorkStep, job: JobId)
    requires WorkEnabled(s, t, step) && job in s.issued
    ensures job in AfterWork(s, t, step).issued && AfterWork(s, t, step).issued[job] == s.issued[job]
  {
  }

  lemma ChatStepIssued(s: System, c: ChatId, step: ChatStep)
    requires ChatEnabled(s, c, step)
    ensures AfterChat(s, c, step).issued == s.issued && AfterChat(s, c, step).ended == s.ended
  {
  }

  lemma ClaimStepIssued(s: System, c: ChatId, step: ClaimStep)
    requires ClaimEnabled(s, c, step)
    ensures AfterClaim(s, c, step).issued == s.issued && AfterClaim(s, c, step).ended == s.ended
  {
  }

  lemma CancelStepIssued(s: System, t: TaskId, step: CancelStep)
    requires CancelEnabled(s, t, step)
    ensures AfterCancel(s, t, step).issued == s.issued
  {
  }

  lemma StepIssued(s: System, step: Step, job: JobId)
    requires Enabled(s, step) && job in s.issued
    ensures job in Apply(s, step).issued && Apply(s, step).issued[job] == s.issued[job]
  {
    match step
    case Chat(c, chatStep) => ChatStepIssued(s, c, chatStep);
    case Work(t, workStep) => WorkStepIssued(s, t, workStep, job);
    case Claim(c, claimStep) => ClaimStepIssued(s, c, claimStep);
    case Cancel(t, cancelStep) => CancelStepIssued(s, t, cancelStep);
  }

  lemma {:induction false} IssuedStays(states: seq<System>, steps: seq<Step>, a: nat, b: nat, job: JobId)
    requires IsRun(states, steps) && a <= b < |states|
    ensures job in states[a].issued ==> job in states[b].issued && states[b].issued[job] == states[a].issued[job]
  {
    if a < b {
      IssuedStays(states, steps, a, b - 1, job);
      if job in states[a].issued {
        StepIssued(states[b - 1], steps[b - 1], job);
      }
    }
  }

  // ----- Capabilities -----

  /** The chat has this capability, which is not empty. */
  predicate HasCapability(chats: Chats, chat: ChatId, capability: string) {
    capability != "" && chat in chats && chats[chat].capability == capability
  }

  lemma ChatStepCapability(s: System, c: ChatId, step: ChatStep, chat: ChatId, capability: string)
    requires ChatEnabled(s, c, step) && HasCapability(s.chats, chat, capability)
    ensures HasCapability(AfterChat(s, c, step).chats, chat, capability)
  {
  }

  lemma WorkStepCapability(s: System, t: TaskId, step: WorkStep, chat: ChatId, capability: string)
    requires WorkEnabled(s, t, step) && HasCapability(s.chats, chat, capability)
    ensures HasCapability(AfterWork(s, t, step).chats, chat, capability)
  {
  }

  lemma ClaimStepCapability(s: System, c: ChatId, step: ClaimStep, chat: ChatId, capability: string)
    requires ClaimEnabled(s, c, step) && HasCapability(s.chats, chat, capability)
    ensures HasCapability(AfterClaim(s, c, step).chats, chat, capability)
  {
  }

  lemma CancelStepCapability(s: System, t: TaskId, step: CancelStep, chat: ChatId, capability: string)
    requires CancelEnabled(s, t, step) && HasCapability(s.chats, chat, capability)
    ensures HasCapability(AfterCancel(s, t, step).chats, chat, capability)
  {
  }

  /** In every run a chat keeps the first capability it was given, and every later begin returns it. */
  lemma {:induction false} CapabilityStays(
    states: seq<System>, steps: seq<Step>, a: nat, b: nat, chat: ChatId, capability: string, issue: Option<string>)
    requires IsRun(states, steps) && a <= b < |states| && HasCapability(states[a].chats, chat, capability)
    ensures HasCapability(states[b].chats, chat, capability)
    ensures AfterBegin(states[b].chats, chat, issue).1.Ok? ==>
      AfterBegin(states[b].chats, chat, issue).1.value == capability
  {
    if a < b {
      CapabilityStays(states, steps, a, b - 1, chat, capability, issue);
      var s := states[b - 1];
      StepTaken(states, steps, b - 1);
      match steps[b - 1]
      case Chat(c, chatStep) => ChatStepCapability(s, c, chatStep, chat, capability);
      case Work(t, workStep) => WorkStepCapability(s, t, workStep, chat, capability);
      case Claim(c, claimStep) => ClaimStepCapability(s, c, claimStep, chat, capability);
      case Cancel(t, cancelStep) => CancelStepCapability(s, t, cancelStep, chat, capability);
    }
    BeginReports(states[b].chats, chat, issue);
  }

  // ----- What an execution has read -----

  predicate RunsAt(s: System, t: TaskId) { t in s.tasks && s.tasks[t].Running? }

  /** The input consists of these items. */
  predicate IsInput(input: Input, items: seq<Item>) {
    match input
    case Polls(polls) => |polls| == |items| && forall i | 0 <= i < |items| :: items[i] == Poll(polls[i])
    case Results(results) => |results| == |items| && forall i | 0 <= i < |items| :: items[i] == Read(results[i])
  }

  /** The items that task t receives from step a on, before step k. */
  function Received(steps: seq<Step>, t: TaskId, a: nat, k: nat): seq<Item>
    requires a <= k <= |steps|
  {
    if a == k then [] else Received(steps, t, a, k - 1) + ReceivedBy(steps[k - 1], t)
  }

  function ReceivedBy(step: Step, t: TaskId): seq<Item> {
    if step.Work? && step.t == t && step.workStep.Receive? then [step.workStep.item] else []
  }

  /** A task that runs after a step began with it, received something by it, or ran before it just so. */
  predicate CameFrom(s: System, step: Step, t: TaskId, task: Task) {
    || (step == Work(t, AddJob) && task.Running? && IsInput(task.input, [])
        && t in s.tasks && s.tasks[t].job == task.job)
    || (RunsAt(s, t) && task.Running? && s.tasks[t].job == task.job
        && if ReceivedBy(step, t) == [] then task == s.tasks[t]
           else Fits(s.tasks[t].input, step.workStep.item)
                && task.input == Extended(s.tasks[t].input, step.workStep.item))
  }

  lemma InputGrows(s: System, step: Step, t: TaskId, task: Task, items: seq<Item>)
    requires CameFrom(s, step, t, task) && step != Work(t, AddJob) && IsInput(s.tasks[t].input, items)
    ensures IsInput(task.input, items + ReceivedBy(step, t))
  {
    if ReceivedBy(step, t) == [] {
      assert items + [] == items;
    }
  }

  lemma WorkStepCameFrom(s: System, u: TaskId, step: WorkStep, t: TaskId)
    requires WorkEnabled(s, u, step) && RunsAt(AfterWork(s, u, step), t)
    ensures CameFrom(s, Work(u, step), t, AfterWork(s, u, step).tasks[t])
  {
  }

  lemma ClaimStepCameFrom(s: System, c: ChatId, step: ClaimStep, t: TaskId)
    requires ClaimEnabled(s, c, step) && RunsAt(AfterClaim(s, c, step), t)
    ensures CameFrom(s, Claim(c, step), t, AfterClaim(s, c, step).tasks[t])
  {
  }

  lemma CancelStepCameFrom(s: System, u: TaskId, step: CancelStep, t: TaskId)
    requires CancelEnabled(s, u, step) && RunsAt(AfterCancel(s, u, step), t)
    ensures CameFrom(s, Cancel(u, step), t, AfterCancel(s, u, step).tasks[t])
  {
  }

  lemma StepCameFrom(s: System, step: Step, t: TaskId)
    requires Enabled(s, step) && RunsAt(Apply(s, step), t)
    ensures CameFrom(s, step, t, Apply(s, step).tasks[t])
  {
    match step
    case Chat(c, chatStep) =>
    case Work(u, workStep) => WorkStepCameFrom(s, u, workStep, t);
    case Claim(c, claimStep) => ClaimStepCameFrom(s, c, claimStep, t);
    case Cancel(u, cancelStep) => CancelStepCameFrom(s, u, cancelStep, t);
  }

  /** In every run the input of an execution is exactly what it has received since its job was tracked, in order. */
  lemma {:induction false} InputWasReceived(states: seq<System>, steps: seq<Step>, k: nat, t: TaskId) returns (a: nat)
    requires IsRun(states, steps) && k < |states| && RunsAt(states[k], t)
    ensures a < k && steps[a] == Work(t, AddJob)
    ensures t in states[a].tasks && states[a].tasks[t].job == states[k].tasks[t].job
    ensures IsInput(states[k].tasks[t].input, Received(steps, t, a + 1, k))
  {
    StepCameFrom(states[k - 1], steps[k - 1], t);
    if steps[k - 1] == Work(t, AddJob) {
      a := k - 1;
    } else {
      a := InputWasReceived(states, steps, k - 1, t);
      InputGrows(states[k - 1], steps[k - 1], t, states[k].tasks[t], Received(steps, t, a + 1, k - 1));
    }
  }

  // ----- Cleaning up after a rejected stream -----

  /** The task cancels the job for its execution, and the executor's own cleanup is to follow. */
  predicate WillCleanUp(s: System, t: TaskId, job: JobId) {
    t in s.tasks && s.tasks[t].Cancelling? && s.tasks[t].job == job && s.tasks[t].armed && s.tasks[t].thenCleanup
  }

  predicate CleansUp(s: System, t: TaskId, job: JobId) {
    && t in s.tasks && s.tasks[t].Cancelling? && s.tasks[t].job == job
    && s.tasks[t].phase == Waiting && !s.tasks[t].armed
  }

  /** A model job that is rejected because a cancel was requested is cancelled and then cleaned up. */
  lemma RejectedWillCleanUp(s: System, t: TaskId)
    requires WorkEnabled(s, t, AddJob) && s.tasks[t].kind.Model?
    requires s.tasks[t].chat in s.chats && s.chats[s.tasks[t].chat].cancelRequested
    ensures WillCleanUp(AfterWork(s, t, AddJob), t, s.tasks[t].job)
  {
  }

  lemma WorkCleanUp(s: System, u: TaskId, step: WorkStep, t: TaskId, job: JobId)
    requires WorkEnabled(s, u, step) && WillCleanUp(s, t, job)
    ensures WillCleanUp(AfterWork(s, u, step), t, job)
  {
  }

  lemma ClaimCleanUp(s: System, c: ChatId, step: ClaimStep, t: TaskId, job: JobId)
    requires ClaimEnabled(s, c, step) && WillCleanUp(s, t, job)
    ensures WillCleanUp(AfterClaim(s, c, step), t, job)
  {
  }

  lemma CancelCleanUp(s: System, u: TaskId, step: CancelStep, t: TaskId, job: JobId)
    requires CancelEnabled(s, u, step) && WillCleanUp(s, t, job) && !(u == t && step == Release(true))
    ensures WillCleanUp(AfterCancel(s, u, step), t, job) || CleansUp(AfterCancel(s, u, step), t, job)
  {
  }

  lemma CleanUpStep(s: System, step: Step, t: TaskId, job: JobId)
    requires Enabled(s, step) && WillCleanUp(s, t, job) && step != Cancel(t, Release(true))
    ensures WillCleanUp(Apply(s, step), t, job) || CleansUp(Apply(s, step), t, job)
  {
    match step
    case Chat(c, chatStep) =>
    case Work(u, workStep) => WorkCleanUp(s, u, workStep, t, job);
    case Claim(c, claimStep) => ClaimCleanUp(s, c, claimStep, t, job);
    case Cancel(u, cancelStep) => CancelCleanUp(s, u, cancelStep, t, job);
  }

  /** Nobody drops task t at these steps. */
  predicate Undropped(steps: seq<Step>, t: TaskId, i: nat, k: nat) {
    forall n | i <= n < k && n < |steps| :: steps[n] != Cancel(t, Release(true))
  }

  /** Unless it is dropped, the cancellation of a rejected stream ends in the executor's cleanup. */
  lemma {:induction false} CleanupFollows(
    states: seq<System>, steps: seq<Step>, i: nat, k: nat, t: TaskId, job: JobId) returns (j: nat)
    requires IsRun(states, steps) && i <= k < |states| && WillCleanUp(states[i], t, job)
    requires Undropped(steps, t, i, k)
    ensures WillCleanUp(states[k], t, job) || (i <= j <= k && CleansUp(states[j], t, job))
  {
    j := i;
    if i < k {
      assert Undropped(steps, t, i, k - 1) && steps[k - 1] != Cancel(t, Release(true));
      j := CleanupFollows(states, steps, i, k - 1, t, job);
      if WillCleanUp(states[k - 1], t, job) {
        StepTaken(states, steps, k - 1);
        CleanUpStep(states[k - 1], steps[k - 1], t, job);
        j := k;
      }
    }
  }
}
