/**
 Who owns a job, from the answered enqueue to the evidence that the job has ended.

 A state machine over the tracker, the two executors' ownership maps, their per-job delete locks
 and every task that works on a job. One step is one section under one mutex (or one flag); between
 two steps any other task may run, and a task that waits for a remote call may be dropped there.
 Job identifiers come fresh from the job server.
 */
module JobOwnership {
  import opened Base
  import opened Tracker
  import ResultWait
  import StreamCollect

  type TaskId(==, !new)

  /** What an execution has read of its job's output: the polls of a stream, or the reads of a wait. */
  datatype Input = Polls(polls: seq<StreamCollect.Poll>) | Results(results: seq<ResultWait.Read>)

  datatype Item = Poll(poll: StreamCollect.Poll) | Read(read: ResultWait.Read)

  function NoInput(kind: JobKind): Input { if kind.Model? then Polls([]) else Results([]) }

  predicate Fits(input: Input, item: Item) { input.Polls? <==> item.Poll? }

  function Extended(input: Input, item: Item): Input
    requires Fits(input, item)
  {
    if input.Polls? then Polls(input.polls + [item.poll]) else Results(input.results + [item.read])
  }

  /**
   The input that makes an executor let go of a job once its output ends: a framed stream, or one result
   that matches the job and its target.
   */
  predicate Concludes(input: Input, job: JobId, target: ResultWait.Target) {
    match input
    case Polls(polls) => StreamCollect.Framed(polls)
    case Results(results) => ResultWait.Concluded(results, job, target)
  }

  /**
   A cancellation: `Waiting` for the executor's delete lock, `Deleting` while it holds the lock and
   the remote Delete is in flight, `Failed` once that gave no confirmation, `Confirmed` once the
   executor has dropped the job but the tracker has not yet.
   */
  datatype Phase = Waiting | Deleting | Failed | Confirmed

  datatype Task =
      // The executor holds the job; the tracker has not been told.
    | Inserted(chat: ChatId, job: JobId, kind: JobKind)
      // The execution consumes the job's output, so far `input`.
    | Running(chat: ChatId, job: JobId, kind: JobKind, input: Input)
      // The executor has dropped the ended job; the tracker has not been told.
    | Finishing(chat: ChatId, job: JobId, kind: JobKind)
      // A cancellation. `armed` tasks hold a claim guard; the executor's own cleanup of a job that
      // its observer rejected holds none, and `thenCleanup` says that it will follow.
    | Cancelling(chat: ChatId, job: JobId, kind: JobKind, phase: Phase, armed: bool, thenCleanup: bool)

  datatype Origin = Origin(chat: ChatId, kind: JobKind)

  /** Why a job has ended: its Delete was confirmed, or its output ended after this input. */
  datatype Evidence = DeleteConfirmed | OutputEnded(input: Input)

  datatype System = System(
    chats: Chats,
    executions: set<ChatId>,           // live finish guards
    issued: map<JobId, Origin>,        // every answered enqueue
    targets: map<JobId, ResultWait.Target>,
    owned: map<JobId, JobKind>,        // which executor's map holds the job
    locks: map<JobId, TaskId>,         // delete locks that are held
    ended: map<JobId, Evidence>,
    tasks: map<TaskId, Task>)

  datatype ChatStep = Prepare(issue: Option<string>) | Begin(issue: Option<string>) | Finish

  datatype WorkStep =
    | Enqueue(chat: ChatId, job: JobId, kind: JobKind, target: ResultWait.Target)
    | AddJob
    | Receive(item: Item)
    | Drop
    | Complete
    | Finished

  datatype ClaimStep =
    | One(t: TaskId, capability: string, job: JobId)
    | Internal(t: TaskId, job: JobId, expected: JobKind)
    | All(ids: map<TaskId, JobId>, capability: string)

  datatype CancelStep = Lock | Confirm | Abort | Release(dropped: bool) | Forget | NotOwned

  datatype Step =
    | Chat(chat: ChatId, chatStep: ChatStep)
    | Work(t: TaskId, workStep: WorkStep)
    | Claim(chat: ChatId, claimStep: ClaimStep)
    | Cancel(t: TaskId, cancelStep: CancelStep)

  predicate InPhase(s: System, t: TaskId, phase: Phase) {
    t in s.tasks && s.tasks[t].Cancelling? && s.tasks[t].phase == phase
  }

  /** A task at the end of its cancellation without a confirmation. */
  predicate Unconfirmed(s: System, t: TaskId) {
    InPhase(s, t, Waiting) || InPhase(s, t, Failed)
  }

  /** The executor that a task's kind selects owns its job. */
  predicate Owns(s: System, task: Task) {
    task.job in s.owned && s.owned[task.job] == task.kind
  }

  predicate Injective(ids: map<TaskId, JobId>) {
    forall t, u | t in ids && u in ids && ids[t] == ids[u] :: t == u
  }

  predicate ChatEnabled(s: System, chat: ChatId, step: ChatStep) {
    // The finish guard goes after everything the execution was waiting for.
    step.Finish? ==>
      && chat in s.executions
      && forall t | t in s.tasks :: s.tasks[t].chat == chat ==> s.tasks[t].Cancelling?
  }

  /** The output that a running execution has read lets its executor conclude. */
  predicate Concluded(s: System, task: Task)
    requires task.Running?
  {
    task.job in s.targets && Concludes(task.input, task.job, s.targets[task.job])
  }

  predicate WorkEnabled(s: System, t: TaskId, step: WorkStep) {
    match step
    case Enqueue(chat, job, kind, target) => chat in s.executions && t !in s.tasks && job !in s.issued
    case AddJob => t in s.tasks && s.tasks[t].Inserted?
    case Receive(item) => t in s.tasks && s.tasks[t].Running? && Fits(s.tasks[t].input, item)
    case Drop => t in s.tasks && s.tasks[t].Running?
    case Complete => t in s.tasks && s.tasks[t].Running? && Concluded(s, s.tasks[t])
    case Finished => t in s.tasks && s.tasks[t].Finishing?
  }

  predicate ClaimEnabled(s: System, chat: ChatId, step: ClaimStep) {
    match step
    case One(t, capability, job) =>
      && WellFormed(capability) && t !in s.tasks
      && Unclaimed(s.chats, chat, job) && s.chats[chat].capability == capability
    case Internal(t, job, expected) =>
      // The execution names a job it started itself, with the kind it started it as.
      && t !in s.tasks && Unclaimed(s.chats, chat, job)
      && job in s.issued && s.issued[job] == Origin(chat, expected)
    case All(ids, capability) =>
      && WellFormed(capability) && MayCancelAll(s.chats, chat, capability)
      && ids.Keys !! s.tasks.Keys && Injective(ids) && ids.Values == s.chats[chat].Claimable()
  }

  predicate CancelEnabled(s: System, t: TaskId, step: CancelStep) {
    match step
    case Lock => InPhase(s, t, Waiting) && s.tasks[t].job !in s.locks && Owns(s, s.tasks[t])
    case Confirm => InPhase(s, t, Deleting)
    case Abort => InPhase(s, t, Deleting)
    case Release(dropped) => Unconfirmed(s, t)
    case Forget => InPhase(s, t, Confirmed)
    case NotOwned => Unconfirmed(s, t) && !s.tasks[t].armed && !Owns(s, s.tasks[t])
  }

  /** One waiting guard for each job of a cancel-all. */
  function Guards(chat: ChatId, jobs: map<JobId, TrackedJob>, ids: map<TaskId, JobId>): map<TaskId, Task>
    requires ids.Values <= jobs.Keys
  {
    map t | t in ids :: Cancelling(chat, ids[t], (assert ids[t] in ids.Values; jobs[ids[t]].kind), Waiting, true, false)
  }

  /** All tasks once cancellation `t` is over: a rejected stream job is cleaned up next. */
  function Retired(s: System, t: TaskId, dropped: bool): map<TaskId, Task>
    requires t in s.tasks && s.tasks[t].Cancelling?
  {
    var task := s.tasks[t];
    if task.thenCleanup && !dropped
    then s.tasks[t := task.(phase := Waiting, armed := false, thenCleanup := false)]
    else s.tasks - {t}
  }

  function AfterChat(s: System, chat: ChatId, step: ChatStep): System
    requires ChatEnabled(s, chat, step)
  {
    match step
    case Prepare(issue) =>
      var chats := AfterCapability(s.chats, chat, issue);
      s.(chats := if chats[chat].capability == "" then chats else AfterPrepare(chats, chat))
    case Begin(issue) =>
      var (chats, r) := AfterBegin(s.chats, chat, issue);
      s.(chats := chats, executions := if r.Ok? then s.executions + {chat} else s.executions)
    case Finish =>
      s.(chats := AfterFinish(s.chats, chat), executions := s.executions - {chat})
  }

  function AfterWork(s: System, t: TaskId, step: WorkStep): System
    requires WorkEnabled(s, t, step)
  {
    match step
    case Enqueue(chat, job, kind, target) =>
      s.(issued := s.issued[job := Origin(chat, kind)],
         targets := s.targets[job := target],
         owned := s.owned[job := kind],
         tasks := s.tasks[t := Inserted(chat, job, kind)])
    case AddJob =>
      var task := s.tasks[t];
      var claimed := task.chat in s.chats && s.chats[task.chat].cancelRequested;
      s.(chats := AfterAddJob(s.chats, task.chat, task.job, task.kind),
         tasks := s.tasks[t := if claimed
                               then Cancelling(task.chat, task.job, task.kind, Waiting, true, task.kind.Model?)
                               else Running(task.chat, task.job, task.kind, NoInput(task.kind))])
    case Receive(item) =>
      s.(tasks := s.tasks[t := s.tasks[t].(input := Extended(s.tasks[t].input, item))])
    case Drop =>
      s.(tasks := s.tasks - {t})
    case Complete =>
      var task := s.tasks[t];
      s.(owned := s.owned - {task.job},
         ended := s.ended[task.job := OutputEnded(task.input)],
         tasks := s.tasks[t := Finishing(task.chat, task.job, task.kind)])
    case Finished =>
      s.(chats := AfterForget(s.chats, s.tasks[t].chat, s.tasks[t].job), tasks := s.tasks - {t})
  }

  function AfterClaim(s: System, chat: ChatId, step: ClaimStep): System
    requires ClaimEnabled(s, chat, step)
  {
    match step
    case One(t, capability, job) =>
      s.(chats := AfterMark(s.chats, chat, job, true),
         tasks := s.tasks[t := Cancelling(chat, job, s.chats[chat].jobs[job].kind, Waiting, true, false)])
    case Internal(t, job, expected) =>
      // A claim of an unexpected kind is given no guard.
      s.(chats := AfterMark(s.chats, chat, job, true),
         tasks := if s.chats[chat].jobs[job].kind == expected
                  then s.tasks[t := Cancelling(chat, job, expected, Waiting, true, false)] else s.tasks)
    case All(ids, capability) =>
      s.(chats := AfterClaimAll(s.chats, chat), tasks := s.tasks + Guards(chat, s.chats[chat].jobs, ids))
  }

  function AfterCancel(s: System, t: TaskId, step: CancelStep): System
    requires CancelEnabled(s, t, step)
  {
    var task := s.tasks[t];
    match step
    case Lock =>
      s.(locks := s.locks[task.job := t], tasks := s.tasks[t := task.(phase := Deleting)])
    case Confirm =>
      s.(owned := s.owned - {task.job},
         locks := s.locks - {task.job},
         ended := s.ended[task.job := DeleteConfirmed],
         tasks := s.tasks[t := task.(phase := Confirmed)])
    case Abort =>
      s.(locks := s.locks - {task.job}, tasks := s.tasks[t := task.(phase := Failed)])
    case Release(dropped) =>
      s.(chats := if task.armed then AfterMark(s.chats, task.chat, task.job, false) else s.chats,
         tasks := Retired(s, t, dropped))
    case Forget =>
      s.(chats := AfterForget(s.chats, task.chat, task.job), tasks := Retired(s, t, false))
    case NotOwned =>
      s.(chats := AfterForget(s.chats, task.chat, task.job), tasks := s.tasks - {t})
  }

  predicate Enabled(s: System, step: Step) {
    match step
    case Chat(chat, chatStep) => ChatEnabled(s, chat, chatStep)
    case Work(t, workStep) => WorkEnabled(s, t, workStep)
    case Claim(chat, claimStep) => ClaimEnabled(s, chat, claimStep)
    case Cancel(t, cancelStep) => CancelEnabled(s, t, cancelStep)
  }

  function Apply(s: System, step: Step): System
    requires Enabled(s, step)
  {
    match step
    case Chat(chat, chatStep) => AfterChat(s, chat, chatStep)
    case Work(t, workStep) => AfterWork(s, t, workStep)
    case Claim(chat, claimStep) => AfterClaim(s, chat, claimStep)
    case Cancel(t, cancelStep) => AfterCancel(s, t, cancelStep)
  }

  ghost predicate Init(s: System) {
    s == System(map[], {}, map[], map[], map[], map[], map[], map[])
  }

  // ----- The invariant -----

  type Tasks = map<TaskId, Task>
  type Issued = map<JobId, Origin>
  type Owned = map<JobId, JobKind>

  predicate HoldsGuard(task: Task) {
    task.Cancelling? && task.armed
  }

  /** It stands between the executor's removal of its job and the tracker's. */
  predicate Removes(task: Task) {
    task.Finishing? || (task.Cancelling? && task.phase.Confirmed?)
  }

  /** For a job: who holds its guard, who removes it, who brings it to the tracker. */
  datatype Witness = Witness(
    guard: map<JobId, TaskId>, remover: map<JobId, TaskId>, bringer: map<JobId, TaskId>)

  /** Every task knows its job's origin, and is the only one in its role. */
  ghost predicate TasksInv(tasks: Tasks, issued: Issued, chats: set<ChatId>, owned: Owned, w: Witness) {
    forall t | t in tasks ::
      && tasks[t].job in issued && issued[tasks[t].job] == Origin(tasks[t].chat, tasks[t].kind)
      && tasks[t].chat in chats
      && (HoldsGuard(tasks[t]) ==> tasks[t].job in w.guard && w.guard[tasks[t].job] == t)
      && (tasks[t].Inserted? ==> tasks[t].job in w.bringer)
      && (tasks[t].job in w.bringer ==> w.bringer[tasks[t].job] == t)
      && (Removes(tasks[t]) ==> tasks[t].job !in owned)
  }

  ghost predicate WitnessInv(tasks: Tasks, w: Witness) {
    && (forall j | j in w.guard ::
          w.guard[j] in tasks && HoldsGuard(tasks[w.guard[j]]) && tasks[w.guard[j]].job == j)
    && (forall j | j in w.remover ::
          w.remover[j] in tasks && Removes(tasks[w.remover[j]]) && tasks[w.remover[j]].job == j)
    && (forall j | j in w.bringer ::
          w.bringer[j] in tasks && tasks[w.bringer[j]].Inserted? && tasks[w.bringer[j]].job == j)
  }

  /** A tracked job is marked exactly while it is guarded, and still has an owner. */
  ghost predicate JobsInv(chats: Chats, issued: Issued, owned: Owned, w: Witness) {
    forall c, j | c in chats && j in chats[c].jobs ::
      && j in issued && issued[j] == Origin(c, chats[c].jobs[j].kind)
      && (chats[c].jobs[j].cancelling <==> j in w.guard)
      && (j in owned || j in w.remover)
      && j !in w.bringer
  }

  /** No one lets go of an enqueued job before it has ended. */
  ghost predicate IssuedInv(
    chats: Chats, issued: Issued, owned: Owned, ended: map<JobId, Evidence>, bringer: map<JobId, TaskId>)
  {
    && (forall j | j in owned :: j in issued && owned[j] == issued[j].kind && j !in ended)
    && (forall j | j in ended :: j in issued)
    && (forall j | j in issued ::
          && (j in owned || (j in ended && j !in bringer))
          && (Tracks(chats, issued[j].chat, j) || j in ended || j in bringer))
  }

  ghost predicate JobInv(s: System, w: Witness) {
    && TasksInv(s.tasks, s.issued, s.chats.Keys, s.owned, w)
    && WitnessInv(s.tasks, w)
    && JobsInv(s.chats, s.issued, s.owned, w)
    && IssuedInv(s.chats, s.issued, s.owned, s.ended, w.bringer)
  }

  predicate Deletes(task: Task) {
    task.Cancelling? && task.phase.Deleting?
  }

  /** A lock is held exactly while its holder's Delete is in flight. */
  ghost predicate LocksInv(tasks: Tasks, locks: map<JobId, TaskId>) {
    && (forall t | t in tasks && Deletes(tasks[t]) :: tasks[t].job in locks && locks[tasks[t].job] == t)
    && (forall j | j in locks :: locks[j] in tasks && Deletes(tasks[locks[j]]) && tasks[locks[j]].job == j)
  }

  /** The flags agree with each other and with the live executions. */
  ghost predicate FlagsInv(chats: Chats, executions: set<ChatId>) {
    && executions <= chats.Keys
    && forall c | c in chats :: FlagsAgree(chats[c]) && (chats[c].active <==> c in executions)
  }

  ghost predicate Inv(s: System) {
    FlagsInv(s.chats, s.executions) && LocksInv(s.tasks, s.locks) && exists w :: JobInv(s, w)
  }

  // ----- Tasks and witnesses -----

  predicate SameJob(task: Task, task': Task) {
    task'.chat == task.chat && task'.job == task.job && task'.kind == task.kind
  }

  /** The witnesses once task `t` is `task'`; `t` may be new. */
  ghost function Put(tasks: Tasks, w: Witness, t: TaskId, task': Task): Witness {
    var was := t in tasks;
    w.(guard := if HoldsGuard(task') then w.guard[task'.job := t]
                else if was && HoldsGuard(tasks[t]) then w.guard - {task'.job} else w.guard,
       bringer := if task'.Inserted? then w.bringer[task'.job := t]
                  else if was && tasks[t].Inserted? then w.bringer - {task'.job} else w.bringer,
       remover := if Removes(task') then w.remover[task'.job := t] else w.remover)
  }

  /** What makes `Put` a legal move. */
  ghost predicate MayPut(tasks: Tasks, w: Witness, t: TaskId, task': Task) {
    && (t in tasks ==> SameJob(tasks[t], task') && (Removes(tasks[t]) ==> Removes(task'))
                       && (task'.Inserted? ==> tasks[t].Inserted?))
    && (HoldsGuard(task') ==> task'.job in w.guard ==> w.guard[task'.job] == t)
    && (task'.job in w.bringer ==> w.bringer[task'.job] == t)
    && (task'.Inserted? && t !in tasks ==> forall u | u in tasks :: tasks[u].job != task'.job)
  }

  lemma PutTasks(
    tasks: Tasks, issued: Issued, owned: Owned, issued': Issued, owned': Owned,
    chats: set<ChatId>, w: Witness, t: TaskId, task': Task)
    requires TasksInv(tasks, issued, chats, owned, w) && MayPut(tasks, w, t, task')
    requires forall j | j in issued :: j in issued' && issued'[j] == issued[j] && (j in owned' ==> j in owned)
    requires task'.job in issued' && issued'[task'.job] == Origin(task'.chat, task'.kind) && task'.chat in chats
    requires Removes(task') ==> task'.job !in owned'
    ensures TasksInv(tasks[t := task'], issued', chats, owned', Put(tasks, w, t, task'))
  {
  }

  lemma PutWitness(tasks: Tasks, w: Witness, t: TaskId, task': Task)
    requires WitnessInv(tasks, w) && MayPut(tasks, w, t, task')
    ensures WitnessInv(tasks[t := task'], Put(tasks, w, t, task'))
  {
  }

  /** A task that the tracker knows moves on within its role, or becomes the remover of its job. */
  lemma PutOn(
    tasks: Tasks, issued: Issued, owned: Owned, owned': Owned, chats: set<ChatId>, w: Witness, t: TaskId, task': Task)
    requires TasksInv(tasks, issued, chats, owned, w) && WitnessInv(tasks, w)
    requires t in tasks && SameJob(tasks[t], task') && !tasks[t].Inserted? && !task'.Inserted?
    requires HoldsGuard(task') == HoldsGuard(tasks[t]) && (Removes(tasks[t]) ==> Removes(task'))
    requires owned'.Keys <= owned.Keys && (Removes(task') ==> task'.job !in owned')
    ensures var w' := Put(tasks, w, t, task');
      && TasksInv(tasks[t := task'], issued, chats, owned', w') && WitnessInv(tasks[t := task'], w')
      && w'.guard.Keys == w.guard.Keys && w'.bringer == w.bringer && task'.job !in w.bringer
      && w'.remover.Keys == if Removes(task') then w.remover.Keys + {task'.job} else w.remover.Keys
  {
    PutTasks(tasks, issued, owned, issued, owned', chats, w, t, task');
    PutWitness(tasks, w, t, task');
  }

  /** The witnesses once task `t` is gone. */
  ghost function Gone(tasks: Tasks, w: Witness, t: TaskId): Witness
    requires t in tasks
  {
    w.(guard := if HoldsGuard(tasks[t]) then w.guard - {tasks[t].job} else w.guard,
       remover := if Removes(tasks[t]) then w.remover - {tasks[t].job} else w.remover)
  }

  lemma GoneTasks(tasks: Tasks, issued: Issued, chats: set<ChatId>, owned: Owned, w: Witness, t: TaskId)
    requires TasksInv(tasks, issued, chats, owned, w) && t in tasks
    ensures TasksInv(tasks - {t}, issued, chats, owned, Gone(tasks, w, t))
  {
  }

  lemma GoneWitness(tasks: Tasks, w: Witness, t: TaskId)
    requires WitnessInv(tasks, w) && t in tasks && !tasks[t].Inserted?
    ensures WitnessInv(tasks - {t}, Gone(tasks, w, t))
  {
  }

  /** Removing one more witness of a job that is no longer tracked does no harm. */
  lemma FewerRemovers(tasks: Tasks, issued: Issued, chats: set<ChatId>, owned: Owned, w: Witness, j: JobId)
    requires TasksInv(tasks, issued, chats, owned, w) && WitnessInv(tasks, w)
    ensures TasksInv(tasks, issued, chats, owned, w.(remover := w.remover - {j}))
    ensures WitnessInv(tasks, w.(remover := w.remover - {j}))
  {
  }

  /** The guards of a cancel-all, with the job-to-task direction of `ids` spelled out. */
  ghost predicate Inverse(ids: map<TaskId, JobId>, inverse: map<JobId, TaskId>) {
    && (forall j | j in inverse :: inverse[j] in ids && ids[inverse[j]] == j)
    && (forall t | t in ids :: ids[t] in inverse && inverse[ids[t]] == t)
  }

  lemma PutAllTasks(
    tasks: Tasks, issued: Issued, chats: set<ChatId>, owned: Owned, w: Witness,
    chat: ChatId, jobs: map<JobId, TrackedJob>, ids: map<TaskId, JobId>, inverse: map<JobId, TaskId>)
    requires TasksInv(tasks, issued, chats, owned, w) && Inverse(ids, inverse) && chat in chats
    requires ids.Values <= jobs.Keys && ids.Values == inverse.Keys && inverse.Keys !! w.guard.Keys
    requires forall j | j in inverse :: j in issued && issued[j] == Origin(chat, jobs[j].kind) && j !in w.bringer
    ensures TasksInv(tasks + Guards(chat, jobs, ids), issued, chats, owned, w.(guard := w.guard + inverse))
  {
  }

  lemma PutAllWitness(
    tasks: Tasks, w: Witness, chat: ChatId, jobs: map<JobId, TrackedJob>,
    ids: map<TaskId, JobId>, inverse: map<JobId, TaskId>)
    requires WitnessInv(tasks, w) && Inverse(ids, inverse) && ids.Keys !! tasks.Keys
    requires ids.Values <= jobs.Keys && ids.Values == inverse.Keys
    ensures WitnessInv(tasks + Guards(chat, jobs, ids), w.(guard := w.guard + inverse))
  {
  }

  // ----- Tracked and enqueued jobs -----

  lemma ChatsJobs(chats: Chats, chats': Chats, issued: Issued, owned: Owned, ended: map<JobId, Evidence>, w: Witness)
    requires JobsInv(chats, issued, owned, w) && IssuedInv(chats, issued, owned, ended, w.bringer)
    requires chats.Keys <= chats'.Keys
    requires forall c | c in chats' :: chats'[c].jobs == if c in chats then chats[c].jobs else map[]
    ensures JobsInv(chats', issued, owned, w) && IssuedInv(chats', issued, owned, ended, w.bringer)
  {
  }

  lemma JobsInvKeys(chats: Chats, issued: Issued, owned: Owned, w: Witness, w': Witness)
    requires JobsInv(chats, issued, owned, w)
    requires w'.guard.Keys == w.guard.Keys && w'.bringer.Keys == w.bringer.Keys && w'.remover.Keys == w.remover.Keys
    ensures JobsInv(chats, issued, owned, w')
  {
  }

  lemma EnterJobs(
    chats: Chats, issued: Issued, owned: Owned, ended: map<JobId, Evidence>, w: Witness, w': Witness,
    t: TaskId, j: JobId, origin: Origin)
    requires JobsInv(chats, issued, owned, w) && IssuedInv(chats, issued, owned, ended, w.bringer)
    requires j !in issued && w' == w.(bringer := w.bringer[j := t])
    ensures JobsInv(chats, issued[j := origin], owned[j := origin.kind], w')
    ensures IssuedInv(chats, issued[j := origin], owned[j := origin.kind], ended, w'.bringer)
  {
  }

  lemma TrackJobs(chats: Chats, issued: Issued, owned: Owned, w: Witness, w': Witness, j: JobId)
    requires JobsInv(chats, issued, owned, w)
    requires j in issued && j in w.bringer && j in owned && issued[j].chat in chats && j !in w.guard
    requires w'.remover == w.remover && w'.bringer == w.bringer - {j}
    requires w'.guard.Keys == if chats[issued[j].chat].cancelRequested then w.guard.Keys + {j} else w.guard.Keys
    ensures JobsInv(AfterAddJob(chats, issued[j].chat, j, issued[j].kind), issued, owned, w')
  {
  }

  lemma TrackIssued(
    chats: Chats, issued: Issued, owned: Owned, ended: map<JobId, Evidence>, bringer: map<JobId, TaskId>, j: JobId)
    requires IssuedInv(chats, issued, owned, ended, bringer)
    requires j in issued && j in bringer && issued[j].chat in chats
    ensures IssuedInv(AfterAddJob(chats, issued[j].chat, j, issued[j].kind), issued, owned, ended, bringer - {j})
  {
  }

  lemma EndJobs(
    chats: Chats, issued: Issued, owned: Owned, ended: map<JobId, Evidence>, ended': map<JobId, Evidence>,
    w: Witness, w': Witness, j: JobId)
    requires JobsInv(chats, issued, owned, w) && IssuedInv(chats, issued, owned, ended, w.bringer)
    requires j in issued && j !in w.bringer && ended'.Keys == ended.Keys + {j}
    requires w'.guard.Keys == w.guard.Keys && w'.bringer == w.bringer && w'.remover.Keys == w.remover.Keys + {j}
    ensures JobsInv(chats, issued, owned - {j}, w') && IssuedInv(chats, issued, owned - {j}, ended', w'.bringer)
  {
  }

  lemma ForgetJobs(
    chats: Chats, issued: Issued, owned: Owned, ended: map<JobId, Evidence>, w: Witness, w': Witness, j: JobId)
    requires JobsInv(chats, issued, owned, w) && IssuedInv(chats, issued, owned, ended, w.bringer)
    requires j in issued && j in ended && w'.bringer == w.bringer
    requires w.guard.Keys - {j} <= w'.guard.Keys <= w.guard.Keys
    requires w.remover.Keys - {j} <= w'.remover.Keys <= w.remover.Keys
    ensures var chats' := AfterForget(chats, issued[j].chat, j);
      JobsInv(chats', issued, owned, w') && IssuedInv(chats', issued, owned, ended, w'.bringer)
  {
  }

  /** Marking or unmarking a job as its guard appears or disappears. */
  lemma MarkJobs(chats: Chats, issued: Issued, owned: Owned, w: Witness, w': Witness, j: JobId, cancelling: bool)
    requires JobsInv(chats, issued, owned, w)
    requires j in issued && w'.remover == w.remover && w'.bringer == w.bringer
    requires w'.guard.Keys == if cancelling then w.guard.Keys + {j} else w.guard.Keys - {j}
    ensures JobsInv(AfterMark(chats, issued[j].chat, j, cancelling), issued, owned, w')
  {
  }

  lemma MarkIssued(
    chats: Chats, issued: Issued, owned: Owned, ended: map<JobId, Evidence>, bringer: map<JobId, TaskId>,
    chat: ChatId, j: JobId, cancelling: bool)
    requires IssuedInv(chats, issued, owned, ended, bringer)
    ensures IssuedInv(AfterMark(chats, chat, j, cancelling), issued, owned, ended, bringer)
  {
  }

  lemma MarkAllJobs(
    chats: Chats, issued: Issued, owned: Owned, ended: map<JobId, Evidence>, w: Witness, w': Witness, chat: ChatId)
    requires JobsInv(chats, issued, owned, w) && IssuedInv(chats, issued, owned, ended, w.bringer)
    requires chat in chats && w'.remover == w.remover && w'.bringer == w.bringer
    requires w'.guard.Keys == w.guard.Keys + chats[chat].Claimable()
    ensures JobsInv(AfterClaimAll(chats, chat), issued, owned, w')
    ensures IssuedInv(AfterClaimAll(chats, chat), issued, owned, ended, w'.bringer)
  {
  }

  // ----- Chat steps -----

  lemma BeginFlags(chats: Chats, executions: set<ChatId>, chat: ChatId, issue: Option<string>)
    requires FlagsInv(chats, executions)
    ensures var (chats', r) := AfterBegin(chats, chat, issue);
      FlagsInv(chats', if r.Ok? then executions + {chat} else executions)
  {
  }

  lemma PrepareFlags(chats: Chats, executions: set<ChatId>, chat: ChatId, issue: Option<string>)
    requires FlagsInv(chats, executions)
    ensures FlagsInv(AfterCapability(chats, chat, issue), executions)
    ensures FlagsInv(AfterPrepare(chats, chat), executions)
  {
  }

  lemma FinishFlags(chats: Chats, executions: set<ChatId>, chat: ChatId)
    requires FlagsInv(chats, executions)
    ensures FlagsInv(AfterFinish(chats, chat), executions - {chat})
    ensures chat in chats ==> FlagsInv(AfterClaimAll(chats, chat), executions)
  {
  }

  lemma ChatStepFlags(s: System, chat: ChatId, step: ChatStep)
    requires FlagsInv(s.chats, s.executions) && ChatEnabled(s, chat, step)
    ensures var s' := AfterChat(s, chat, step); FlagsInv(s'.chats, s'.executions)
  {
    match step
    case Prepare(issue) =>
      PrepareFlags(s.chats, s.executions, chat, issue);
      PrepareFlags(AfterCapability(s.chats, chat, issue), s.executions, chat, issue);
    case Begin(issue) => BeginFlags(s.chats, s.executions, chat, issue);
    case Finish => FinishFlags(s.chats, s.executions, chat);
  }

  lemma ChatStepJobs(s: System, chat: ChatId, step: ChatStep)
    requires ChatEnabled(s, chat, step)
    ensures var s' := AfterChat(s, chat, step);
      && s' == s.(chats := s'.chats, executions := s'.executions) && s.chats.Keys <= s'.chats.Keys
      && forall c | c in s'.chats :: s'.chats[c].jobs == if c in s.chats then s.chats[c].jobs else map[]
  {
  }

  lemma ChatStepKeeps(s: System, chat: ChatId, step: ChatStep)
    requires Inv(s) && ChatEnabled(s, chat, step)
    ensures Inv(AfterChat(s, chat, step))
  {
    var s' := AfterChat(s, chat, step);
    var w :| JobInv(s, w);
    ChatStepFlags(s, chat, step);
    ChatStepJobs(s, chat, step);
    ChatsJobs(s.chats, s'.chats, s.issued, s.owned, s.ended, w);
    assert JobInv(s', w);
  }

  // ----- Work steps -----

  predicate SameFlags(chats: Chats, chats': Chats) {
    && chats'.Keys == chats.Keys
    && forall c | c in chats ::
         && chats'[c].active == chats[c].active && chats'[c].prepared == chats[c].prepared
         && chats'[c].cancelRequested == chats[c].cancelRequested
  }

  lemma SameFlagsKeep(chats: Chats, chats': Chats, executions: set<ChatId>)
    requires FlagsInv(chats, executions) && SameFlags(chats, chats')
    ensures FlagsInv(chats', executions)
  {
  }

  lemma JobsKeepFlags(chats: Chats, executions: set<ChatId>, chat: ChatId, job: JobId, kind: JobKind)
    requires FlagsInv(chats, executions)
    ensures FlagsInv(AfterAddJob(chats, chat, job, kind), executions)
    ensures FlagsInv(AfterForget(chats, chat, job), executions)
  {
    SameFlagsKeep(chats, AfterAddJob(chats, chat, job, kind), executions);
    SameFlagsKeep(chats, AfterForget(chats, chat, job), executions);
  }

  lemma MarksKeepFlags(chats: Chats, executions: set<ChatId>, chat: ChatId, job: JobId, cancelling: bool)
    requires FlagsInv(chats, executions)
    ensures FlagsInv(AfterMark(chats, chat, job, cancelling), executions)
  {
    SameFlagsKeep(chats, AfterMark(chats, chat, job, cancelling), executions);
  }

  lemma WorkStepRest(s: System, t: TaskId, step: WorkStep)
    requires FlagsInv(s.chats, s.executions) && LocksInv(s.tasks, s.locks) && WorkEnabled(s, t, step)
    ensures var s' := AfterWork(s, t, step); FlagsInv(s'.chats, s'.executions) && LocksInv(s'.tasks, s'.locks)
  {
    if step.AddJob? || step.Finished? {
      JobsKeepFlags(s.chats, s.executions, s.tasks[t].chat, s.tasks[t].job, s.tasks[t].kind);
    }
  }

  lemma EnqueueKeeps(s: System, t: TaskId, task: Task, w: Witness) returns (w': Witness)
    requires JobInv(s, w) && t !in s.tasks && task.Inserted? && task.job !in s.issued && task.chat in s.chats
    ensures JobInv(s.(issued := s.issued[task.job := Origin(task.chat, task.kind)],
                      owned := s.owned[task.job := task.kind], tasks := s.tasks[t := task]), w')
  {
    w' := Put(s.tasks, w, t, task);
    var origin := Origin(task.chat, task.kind);
    PutTasks(s.tasks, s.issued, s.owned, s.issued[task.job := origin], s.owned[task.job := task.kind],
             s.chats.Keys, w, t, task);
    PutWitness(s.tasks, w, t, task);
    EnterJobs(s.chats, s.issued, s.owned, s.ended, w, w', t, task.job, origin);
  }

  /** Facts about the job of a task that the tracker knows, or does not know yet. */
  lemma TaskFacts(s: System, t: TaskId, w: Witness)
    requires JobInv(s, w) && t in s.tasks
    ensures var task := s.tasks[t];
      && task.job in s.issued && s.issued[task.job] == Origin(task.chat, task.kind) && task.chat in s.chats
      && (task.Inserted? ==> task.job in w.bringer && task.job !in w.guard)
      && (!task.Inserted? ==> task.job !in w.bringer)
      && (HoldsGuard(task) <==> task.job in w.guard && w.guard[task.job] == t)
      && (Removes(task) ==> task.job in s.ended && task.job !in s.owned)
  {
  }

  lemma AddJobKeeps(s: System, t: TaskId, task': Task, w: Witness) returns (w': Witness)
    requires JobInv(s, w) && t in s.tasks && s.tasks[t].Inserted? && SameJob(s.tasks[t], task')
    requires !task'.Inserted? && !Removes(task') && task'.chat in s.chats
    requires HoldsGuard(task') == s.chats[task'.chat].cancelRequested
    ensures JobInv(s.(chats := AfterAddJob(s.chats, task'.chat, task'.job, task'.kind),
                      tasks := s.tasks[t := task']), w')
  {
    TaskFacts(s, t, w);
    w' := Put(s.tasks, w, t, task');
    PutTasks(s.tasks, s.issued, s.owned, s.issued, s.owned, s.chats.Keys, w, t, task');
    PutWitness(s.tasks, w, t, task');
    TrackJobs(s.chats, s.issued, s.owned, w, w', task'.job);
    TrackIssued(s.chats, s.issued, s.owned, s.ended, w.bringer, task'.job);
    assert AfterAddJob(s.chats, task'.chat, task'.job, task'.kind).Keys == s.chats.Keys;
  }

  lemma EndKeeps(s: System, t: TaskId, task': Task, evidence: Evidence, w: Witness) returns (w': Witness)
    requires JobInv(s, w) && t in s.tasks && SameJob(s.tasks[t], task') && !s.tasks[t].Inserted?
    requires Removes(task') && HoldsGuard(task') == HoldsGuard(s.tasks[t])
    ensures JobInv(s.(owned := s.owned - {task'.job}, ended := s.ended[task'.job := evidence],
                      tasks := s.tasks[t := task']), w')
  {
    TaskFacts(s, t, w);
    w' := Put(s.tasks, w, t, task');
    PutOn(s.tasks, s.issued, s.owned, s.owned - {task'.job}, s.chats.Keys, w, t, task');
    EndJobs(s.chats, s.issued, s.owned, s.ended, s.ended[task'.job := evidence], w, w', task'.job);
  }

  /** The tracker forgets a job that has ended, and whoever saw to it is gone. */
  lemma ForgetKeeps(s: System, t: TaskId, w: Witness) returns (w': Witness)
    requires JobInv(s, w) && t in s.tasks && !s.tasks[t].Inserted? && s.tasks[t].job in s.ended
    ensures JobInv(s.(chats := AfterForget(s.chats, s.tasks[t].chat, s.tasks[t].job), tasks := s.tasks - {t}), w')
    ensures w'.bringer == w.bringer
  {
    TaskFacts(s, t, w);
    var j := s.tasks[t].job;
    w' := Gone(s.tasks, w, t);
    GoneTasks(s.tasks, s.issued, s.chats.Keys, s.owned, w, t);
    GoneWitness(s.tasks, w, t);
    FewerRemovers(s.tasks - {t}, s.issued, s.chats.Keys, s.owned, w', j);
    w' := w'.(remover := w'.remover - {j});
    ForgetJobs(s.chats, s.issued, s.owned, s.ended, w, w', j);
    assert AfterForget(s.chats, s.tasks[t].chat, j).Keys == s.chats.Keys;
  }

  lemma LeaveKeeps(s: System, t: TaskId, w: Witness)
    requires JobInv(s, w) && t in s.tasks
    requires !s.tasks[t].Inserted? && !HoldsGuard(s.tasks[t]) && !Removes(s.tasks[t])
    ensures JobInv(s.(tasks := s.tasks - {t}), w)
  {
    GoneTasks(s.tasks, s.issued, s.chats.Keys, s.owned, w, t);
    GoneWitness(s.tasks, w, t);
  }

  /** A running execution goes on reading. */
  lemma ReceiveKeeps(s: System, t: TaskId, task': Task, w: Witness)
    requires JobInv(s, w) && t in s.tasks && s.tasks[t].Running? && task'.Running? && SameJob(s.tasks[t], task')
    ensures JobInv(s.(tasks := s.tasks[t := task']), w)
  {
    PutOn(s.tasks, s.issued, s.owned, s.owned, s.chats.Keys, w, t, task');
    assert Put(s.tasks, w, t, task') == w;
  }

  lemma WorkStepJobs(s: System, t: TaskId, step: WorkStep, w: Witness) returns (w': Witness)
    requires JobInv(s, w) && s.executions <= s.chats.Keys && WorkEnabled(s, t, step)
    ensures JobInv(AfterWork(s, t, step), w')
  {
    match step
    case Enqueue(chat, job, kind, target) =>
      w' := EnqueueKeeps(s.(targets := s.targets[job := target]), t, Inserted(chat, job, kind), w);
    case AddJob =>
      TaskFacts(s, t, w);
      w' := AddJobKeeps(s, t, AfterWork(s, t, step).tasks[t], w);
    case Receive(item) =>
      w' := w;
      ReceiveKeeps(s, t, AfterWork(s, t, step).tasks[t], w);
    case Drop =>
      w' := w;
      LeaveKeeps(s, t, w);
    case Complete =>
      var s' := AfterWork(s, t, step);
      w' := EndKeeps(s, t, s'.tasks[t], s'.ended[s.tasks[t].job], w);
    case Finished =>
      TaskFacts(s, t, w);
      w' := ForgetKeeps(s, t, w);
  }

  // ----- Claim steps -----

  lemma ClaimStepRest(s: System, chat: ChatId, step: ClaimStep)
    requires FlagsInv(s.chats, s.executions) && LocksInv(s.tasks, s.locks) && ClaimEnabled(s, chat, step)
    ensures var s' := AfterClaim(s, chat, step); FlagsInv(s'.chats, s'.executions) && LocksInv(s'.tasks, s'.locks)
  {
    match step
    case One(t, capability, job) => MarksKeepFlags(s.chats, s.executions, chat, job, true);
    case Internal(t, job, expected) => MarksKeepFlags(s.chats, s.executions, chat, job, true);
    case All(ids, capability) => FinishFlags(s.chats, s.executions, chat);
  }

  lemma ClaimKeeps(s: System, t: TaskId, chat: ChatId, job: JobId, task: Task, w: Witness) returns (w': Witness)
    requires JobInv(s, w) && t !in s.tasks && Unclaimed(s.chats, chat, job)
    requires task == Cancelling(chat, job, s.chats[chat].jobs[job].kind, Waiting, true, false)
    ensures JobInv(s.(chats := AfterMark(s.chats, chat, job, true), tasks := s.tasks[t := task]), w')
  {
    assert job !in w.guard && job !in w.bringer && s.issued[job] == Origin(chat, task.kind);
    w' := Put(s.tasks, w, t, task);
    PutTasks(s.tasks, s.issued, s.owned, s.issued, s.owned, s.chats.Keys, w, t, task);
    PutWitness(s.tasks, w, t, task);
    MarkJobs(s.chats, s.issued, s.owned, w, w', job, true);
    MarkIssued(s.chats, s.issued, s.owned, s.ended, w.bringer, s.issued[job].chat, job, true);
    assert AfterMark(s.chats, chat, job, true).Keys == s.chats.Keys;
  }

  lemma Invert(ids: map<TaskId, JobId>) returns (inverse: map<JobId, TaskId>)
    requires Injective(ids)
    ensures Inverse(ids, inverse) && inverse.Keys == ids.Values
  {
    inverse := map j | j in ids.Values :: var t :| t in ids && ids[t] == j; t;
    forall t | t in ids ensures ids[t] in inverse && inverse[ids[t]] == t {
      assert ids[t] in ids.Values;
    }
  }

  lemma ClaimableJobs(chats: Chats, issued: Issued, owned: Owned, w: Witness, chat: ChatId)
    requires JobsInv(chats, issued, owned, w) && chat in chats
    ensures chats[chat].Claimable() !! w.guard.Keys
    ensures forall j | j in chats[chat].Claimable() ::
              j in issued && issued[j] == Origin(chat, chats[chat].jobs[j].kind) && j !in w.bringer
  {
  }

  lemma ClaimAllRoles(s: System, ids: map<TaskId, JobId>, inverse: map<JobId, TaskId>, chat: ChatId, w: Witness)
    requires JobInv(s, w) && chat in s.chats && ids.Keys !! s.tasks.Keys && Inverse(ids, inverse)
    requires ids.Values == s.chats[chat].Claimable() == inverse.Keys
    ensures var tasks', w' := s.tasks + Guards(chat, s.chats[chat].jobs, ids), w.(guard := w.guard + inverse);
      TasksInv(tasks', s.issued, s.chats.Keys, s.owned, w') && WitnessInv(tasks', w')
  {
    var jobs := s.chats[chat].jobs;
    ClaimableJobs(s.chats, s.issued, s.owned, w, chat);
    PutAllTasks(s.tasks, s.issued, s.chats.Keys, s.owned, w, chat, jobs, ids, inverse);
    PutAllWitness(s.tasks, w, chat, jobs, ids, inverse);
  }

  lemma ClaimAllKeeps(s: System, ids: map<TaskId, JobId>, chat: ChatId, w: Witness) returns (w': Witness)
    requires JobInv(s, w) && chat in s.chats && ids.Keys !! s.tasks.Keys && Injective(ids)
    requires ids.Values == s.chats[chat].Claimable()
    ensures JobInv(s.(chats := AfterClaimAll(s.chats, chat),
                      tasks := s.tasks + Guards(chat, s.chats[chat].jobs, ids)), w')
  {
    var inverse := Invert(ids);
    w' := w.(guard := w.guard + inverse);
    assert AfterClaimAll(s.chats, chat).Keys == s.chats.Keys;
    ClaimAllRoles(s, ids, inverse, chat, w);
    MarkAllJobs(s.chats, s.issued, s.owned, s.ended, w, w', chat);
  }

  lemma ClaimStepJobs(s: System, chat: ChatId, step: ClaimStep, w: Witness) returns (w': Witness)
    requires JobInv(s, w) && ClaimEnabled(s, chat, step)
    ensures JobInv(AfterClaim(s, chat, step), w')
  {
    match step
    case One(t, capability, job) => w' := ClaimKeeps(s, t, chat, job, AfterClaim(s, chat, step).tasks[t], w);
    case Internal(t, job, expected) =>
      assert s.chats[chat].jobs[job].kind == expected;
      w' := ClaimKeeps(s, t, chat, job, AfterClaim(s, chat, step).tasks[t], w);
    case All(ids, capability) => w' := ClaimAllKeeps(s, ids, chat, w);
  }

  // ----- Cancel steps -----

  lemma CancelStepFlags(s: System, t: TaskId, step: CancelStep)
    requires FlagsInv(s.chats, s.executions) && CancelEnabled(s, t, step)
    ensures var s' := AfterCancel(s, t, step); FlagsInv(s'.chats, s'.executions)
  {
    var task := s.tasks[t];
    JobsKeepFlags(s.chats, s.executions, task.chat, task.job, task.kind);
    MarksKeepFlags(s.chats, s.executions, task.chat, task.job, false);
  }

  lemma CancelStepLocks(s: System, t: TaskId, step: CancelStep)
    requires LocksInv(s.tasks, s.locks) && CancelEnabled(s, t, step)
    ensures var s' := AfterCancel(s, t, step); LocksInv(s'.tasks, s'.locks)
  {
  }

  lemma MoveKeeps(s: System, t: TaskId, phase: Phase, locks: map<JobId, TaskId>, w: Witness)
    requires JobInv(s, w) && t in s.tasks && s.tasks[t].Cancelling? && !phase.Confirmed? && !Removes(s.tasks[t])
    ensures JobInv(s.(locks := locks, tasks := s.tasks[t := s.tasks[t].(phase := phase)]),
                   Put(s.tasks, w, t, s.tasks[t].(phase := phase)))
  {
    var w' := Put(s.tasks, w, t, s.tasks[t].(phase := phase));
    PutOn(s.tasks, s.issued, s.owned, s.owned, s.chats.Keys, w, t, s.tasks[t].(phase := phase));
    JobsInvKeys(s.chats, s.issued, s.owned, w, w');
  }

  lemma ReleaseKeeps(s: System, t: TaskId, w: Witness) returns (w': Witness)
    requires JobInv(s, w) && t in s.tasks && HoldsGuard(s.tasks[t]) && !Removes(s.tasks[t])
    ensures JobInv(s.(chats := AfterMark(s.chats, s.tasks[t].chat, s.tasks[t].job, false), tasks := s.tasks - {t}), w')
    ensures w'.bringer == w.bringer
  {
    w' := Gone(s.tasks, w, t);
    var task := s.tasks[t];
    var chats' := AfterMark(s.chats, task.chat, task.job, false);
    TaskFacts(s, t, w);
    assert TasksInv(s.tasks - {t}, s.issued, chats'.Keys, s.owned, w') by {
      GoneTasks(s.tasks, s.issued, s.chats.Keys, s.owned, w, t);
      assert chats'.Keys == s.chats.Keys;
    }
    assert WitnessInv(s.tasks - {t}, w') by {
      GoneWitness(s.tasks, w, t);
    }
    assert JobsInv(chats', s.issued, s.owned, w') by {
      MarkJobs(s.chats, s.issued, s.owned, w, w', task.job, false);
    }
    MarkIssued(s.chats, s.issued, s.owned, s.ended, w.bringer, task.chat, task.job, false);
  }

  /** A cleanup holds no guard and removes nothing yet. */
  lemma CleanupKeeps(s: System, t: TaskId, task: Task, w: Witness)
    requires JobInv(s, w) && t !in s.tasks && task.Cancelling? && task.phase.Waiting? && !task.armed
    requires task.job in s.issued && s.issued[task.job] == Origin(task.chat, task.kind) && task.chat in s.chats
    requires task.job !in w.bringer
    ensures JobInv(s.(tasks := s.tasks[t := task]), w)
  {
    PutTasks(s.tasks, s.issued, s.owned, s.issued, s.owned, s.chats.Keys, w, t, task);
    PutWitness(s.tasks, w, t, task);
  }

  /** The cleanup of a rejected stream job follows its cancellation. */
  lemma RetiredKeeps(s: System, mid: System, t: TaskId, dropped: bool, w: Witness)
    requires t in s.tasks && s.tasks[t].Cancelling? && mid.tasks == s.tasks - {t} && JobInv(mid, w)
    requires mid.issued == s.issued && s.tasks[t].chat in mid.chats
    requires s.tasks[t].job in s.issued && s.issued[s.tasks[t].job] == Origin(s.tasks[t].chat, s.tasks[t].kind)
    requires s.tasks[t].job !in w.bringer
    ensures JobInv(mid.(tasks := Retired(s, t, dropped)), w)
  {
    var next := s.tasks[t].(phase := Waiting, armed := false, thenCleanup := false);
    CleanupKeeps(mid, t, next, w);
    assert mid.tasks[t := next] == s.tasks[t := next];
  }

  lemma ReleaseArmed(s: System, t: TaskId, dropped: bool, w: Witness) returns (w': Witness)
    requires JobInv(s, w) && Unconfirmed(s, t) && s.tasks[t].armed
    ensures JobInv(s.(chats := AfterMark(s.chats, s.tasks[t].chat, s.tasks[t].job, false),
                      tasks := Retired(s, t, dropped)), w')
  {
    TaskFacts(s, t, w);
    w' := ReleaseKeeps(s, t, w);
    var mid := s.(chats := AfterMark(s.chats, s.tasks[t].chat, s.tasks[t].job, false), tasks := s.tasks - {t});
    RetiredKeeps(s, mid, t, dropped, w');
  }

  lemma ReleaseUnarmed(s: System, t: TaskId, dropped: bool, w: Witness)
    requires JobInv(s, w) && Unconfirmed(s, t) && !s.tasks[t].armed
    ensures JobInv(s.(tasks := Retired(s, t, dropped)), w)
  {
    TaskFacts(s, t, w);
    LeaveKeeps(s, t, w);
    RetiredKeeps(s, s.(tasks := s.tasks - {t}), t, dropped, w);
  }

  lemma ReleaseStepKeeps(s: System, t: TaskId, dropped: bool, w: Witness) returns (w': Witness)
    requires JobInv(s, w) && Unconfirmed(s, t)
    ensures JobInv(AfterCancel(s, t, Release(dropped)), w')
  {
    if s.tasks[t].armed {
      w' := ReleaseArmed(s, t, dropped, w);
    } else {
      w' := w;
      ReleaseUnarmed(s, t, dropped, w);
    }
  }

  lemma ForgetStepKeeps(s: System, t: TaskId, w: Witness) returns (w': Witness)
    requires JobInv(s, w) && InPhase(s, t, Confirmed)
    ensures JobInv(AfterCancel(s, t, Forget), w')
  {
    TaskFacts(s, t, w);
    w' := ForgetKeeps(s, t, w);
    RetiredKeeps(s, AfterCancel(s, t, Forget).(tasks := s.tasks - {t}), t, false, w');
  }

  lemma CancelStepJobs(s: System, t: TaskId, step: CancelStep, w: Witness) returns (w': Witness)
    requires JobInv(s, w) && CancelEnabled(s, t, step)
    ensures JobInv(AfterCancel(s, t, step), w')
  {
    match step
    case Lock =>
      w' := Put(s.tasks, w, t, s.tasks[t].(phase := Deleting));
      MoveKeeps(s, t, Deleting, AfterCancel(s, t, step).locks, w);
    case Abort =>
      w' := Put(s.tasks, w, t, s.tasks[t].(phase := Failed));
      MoveKeeps(s, t, Failed, AfterCancel(s, t, step).locks, w);
    case Confirm => w' := EndKeeps(s, t, s.tasks[t].(phase := Confirmed), DeleteConfirmed, w);
    case Release(dropped) => w' := ReleaseStepKeeps(s, t, dropped, w);
    case Forget => w' := ForgetStepKeeps(s, t, w);
    case NotOwned =>
      TaskFacts(s, t, w);
      w' := ForgetKeeps(s, t, w);
  }

  // ----- Every step and every run -----

  lemma StepKeeps(s: System, step: Step)
    requires Inv(s) && Enabled(s, step)
    ensures Inv(Apply(s, step))
  {
    var w :| JobInv(s, w);
    match step
    case Chat(chat, chatStep) => ChatStepKeeps(s, chat, chatStep);
    case Work(t, workStep) =>
      WorkStepRest(s, t, workStep);
      var w' := WorkStepJobs(s, t, workStep, w);
    case Claim(chat, claimStep) =>
      ClaimStepRest(s, chat, claimStep);
      var w' := ClaimStepJobs(s, chat, claimStep, w);
    case Cancel(t, cancelStep) =>
      CancelStepFlags(s, t, cancelStep);
      CancelStepLocks(s, t, cancelStep);
      var w' := CancelStepJobs(s, t, cancelStep, w);
  }

  ghost predicate IsRun(states: seq<System>, steps: seq<Step>) {
    && |states| == |steps| + 1 && Init(states[0])
    && forall i {:trigger Enabled(states[i], steps[i])} | 0 <= i < |steps| ::
         Enabled(states[i], steps[i]) && states[i + 1] == Apply(states[i], steps[i])
  }

  lemma {:induction false} RunKeeps(states: seq<System>, steps: seq<Step>, k: nat)
    requires IsRun(states, steps) && k < |states|
    ensures Inv(states[k])
  {
    if k == 0 {
      assert JobInv(states[0], Witness(map[], map[], map[]));
    } else {
      RunKeeps(states, steps, k - 1);
      StepKeeps(states[k - 1], steps[k - 1]);
    }
  }

  // ----- What the invariant means for every reachable state -----

  predicate GuardOf(s: System, t: TaskId, job: JobId) {
    t in s.tasks && HoldsGuard(s.tasks[t]) && s.tasks[t].job == job
  }

  ghost predicate Guarded(s: System, j: JobId) { exists t :: GuardOf(s, t, j) }

  /** A tracked job is marked exactly when there is an armed guard for it, and no job has two. */
  lemma MarkedIffGuarded(states: seq<System>, steps: seq<Step>, k: nat)
    requires IsRun(states, steps) && k < |states|
    ensures var s := states[k];
      && (forall c, j | Tracks(s.chats, c, j) :: s.chats[c].jobs[j].cancelling <==> Guarded(s, j))
      && (forall t, u, j | GuardOf(s, t, j) && GuardOf(s, u, j) :: t == u)
  {
    RunKeeps(states, steps, k);
    var s := states[k];
    var w :| JobInv(s, w);
    forall c, j | Tracks(s.chats, c, j) ensures s.chats[c].jobs[j].cancelling <==> Guarded(s, j) {
      MarkedIsGuarded(s, w, c, j);
    }
    forall t, u, j | GuardOf(s, t, j) && GuardOf(s, u, j) ensures t == u {
      GuardedIffWitnessed(s, w, j);
    }
  }

  lemma MarkedIsGuarded(s: System, w: Witness, c: ChatId, j: JobId)
    requires JobInv(s, w) && Tracks(s.chats, c, j)
    ensures s.chats[c].jobs[j].cancelling <==> Guarded(s, j)
  {
    GuardedIffWitnessed(s, w, j);
  }

  lemma GuardedIffWitnessed(s: System, w: Witness, j: JobId)
    requires TasksInv(s.tasks, s.issued, s.chats.Keys, s.owned, w) && WitnessInv(s.tasks, w)
    ensures j in w.guard <==> Guarded(s, j)
    ensures forall t | GuardOf(s, t, j) :: j in w.guard && w.guard[j] == t
  {
    if j in w.guard {
      assert GuardOf(s, w.guard[j], j);
    }
  }

  /** No two Deletes for one job are in flight, not even that of an unclaimed cleanup and a claimed one. */
  lemma OneDeleteInFlight(states: seq<System>, steps: seq<Step>, k: nat, t: TaskId, u: TaskId)
    requires IsRun(states, steps) && k < |states|
    requires t in states[k].tasks && u in states[k].tasks
    requires Deletes(states[k].tasks[t]) && Deletes(states[k].tasks[u])
    requires states[k].tasks[t].job == states[k].tasks[u].job
    ensures t == u
  {
    RunKeeps(states, steps, k);
  }

  /** The state once the future of cancellation `t` is dropped: the lock first, then the guard. */
  function AfterDrop(s: System, t: TaskId): System
    requires Unconfirmed(s, t) || InPhase(s, t, Deleting)
  {
    if InPhase(s, t, Deleting)
    then AfterCancel(AfterCancel(s, t, Abort), t, Release(true)) else AfterCancel(s, t, Release(true))
  }

  lemma DropEffect(s: System, t: TaskId)
    requires Unconfirmed(s, t) || InPhase(s, t, Deleting)
    ensures AfterDrop(s, t).tasks == s.tasks - {t}
    ensures AfterDrop(s, t).chats ==
            if s.tasks[t].armed then AfterMark(s.chats, s.tasks[t].chat, s.tasks[t].job, false) else s.chats
  {
  }

  lemma UnmarkEffect(chats: Chats, chat: ChatId, job: JobId, c: ChatId, j: JobId)
    requires Tracks(chats, c, j) && (j == job ==> c == chat)
    ensures var chats' := AfterMark(chats, chat, job, false);
      if j == job then Unclaimed(chats', c, j) else Tracks(chats', c, j) && chats'[c].jobs[j] == chats[c].jobs[j]
  {
  }

  lemma GuardFacts(s: System, t: TaskId)
    requires Inv(s) && t in s.tasks && HoldsGuard(s.tasks[t])
    ensures forall u :: u in s.tasks && u != t && HoldsGuard(s.tasks[u]) ==> s.tasks[u].job != s.tasks[t].job
    ensures forall c :: Tracks(s.chats, c, s.tasks[t].job) ==> c == s.tasks[t].chat
  {
    var w :| JobInv(s, w);
  }

  /**
   Whatever the wait at which a claimed cancellation is dropped, its guard goes and its job, if still
   tracked, can be claimed again; nothing else changes in the tracker.
   */
  lemma DroppedClaimIsClaimable(states: seq<System>, steps: seq<Step>, k: nat, t: TaskId, c: ChatId, j: JobId)
    requires IsRun(states, steps) && k < |states| && (Unconfirmed(states[k], t) || InPhase(states[k], t, Deleting))
    requires states[k].tasks[t].armed
    ensures forall u :: !GuardOf(AfterDrop(states[k], t), u, states[k].tasks[t].job)
    ensures Tracks(states[k].chats, c, j) ==>
      var chats' := AfterDrop(states[k], t).chats;
      if j == states[k].tasks[t].job then Unclaimed(chats', c, j)
      else Tracks(chats', c, j) && chats'[c].jobs[j] == states[k].chats[c].jobs[j]
  {
    RunKeeps(states, steps, k);
    GuardFacts(states[k], t);
    DropEffect(states[k], t);
    if Tracks(states[k].chats, c, j) {
      UnmarkEffect(states[k].chats, states[k].tasks[t].chat, states[k].tasks[t].job, c, j);
    }
  }

  /** An internal claim finds the kind it expects, so it never marks a job without a guard. */
  lemma InternalClaimIsGuarded(
    states: seq<System>, steps: seq<Step>, k: nat, chat: ChatId, t: TaskId, job: JobId, expected: JobKind)
    requires IsRun(states, steps) && k < |states| && ClaimEnabled(states[k], chat, Internal(t, job, expected))
    ensures GuardOf(AfterClaim(states[k], chat, Internal(t, job, expected)), t, job)
  {
    RunKeeps(states, steps, k);
    var w :| JobInv(states[k], w);
    assert Tracks(states[k].chats, chat, job);
  }

  /**
   When no task is between an executor and the tracker, the two own exactly the same jobs: nothing is
   tracked that could not be cancelled, and no live job is out of reach of a cancel.
   */
  lemma SameOwnersAtRest(states: seq<System>, steps: seq<Step>, k: nat)
    requires IsRun(states, steps) && k < |states|
    requires forall t | t in states[k].tasks :: !Removes(states[k].tasks[t]) && !states[k].tasks[t].Inserted?
    ensures var s := states[k];
      && (forall c, j | Tracks(s.chats, c, j) :: j in s.owned && s.owned[j] == s.chats[c].jobs[j].kind)
      && (forall j | j in s.owned :: j in s.issued && Tracks(s.chats, s.issued[j].chat, j))
  {
    RunKeeps(states, steps, k);
    var s := states[k];
    var w :| JobInv(s, w);
    assert forall j :: j !in w.remover && j !in w.bringer;
  }
}
