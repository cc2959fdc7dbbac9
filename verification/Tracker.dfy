/**
 The execution tracker: per chat, the execution flags and the jobs the chat owns.

 Each `After...` function is the effect of one section that runs under the tracker's mutex, as a
 value; `ExecutionTracker` is the object itself, proved against those functions. The ownership
 protocol in module JobOwnership is built from the same functions.
 */
module Tracker {
  import opened Base

  datatype JobKind = Model | Worker

  datatype TrackedJob = TrackedJob(kind: JobKind, cancelling: bool)

  datatype TrackedChat = TrackedChat(
    capability: string,
    prepared: bool,
    active: bool,
    cancelRequested: bool,
    jobs: map<JobId, TrackedJob>)
  {
    predicate HasPendingJobs() {
      active || cancelRequested || jobs != map[]
    }

    /** The jobs no cancellation has claimed yet. */
    function Claimable(): (ids: set<JobId>)
      ensures ids <= jobs.Keys
    {
      set j | j in jobs && !jobs[j].cancelling
    }
  }

  type Chats = map<ChatId, TrackedChat>

  datatype BeginError = ChatAlreadyActive | Cancelled | CapabilityGeneration

  const MAX_CAPABILITY := 128

  /** What a usable issuer answer is; any other answer is a generation failure. */
  predicate WellFormed(capability: string) {
    0 < |capability| <= MAX_CAPABILITY
  }

  function Entry(chats: Chats, chat: ChatId): TrackedChat {
    if chat in chats then chats[chat] else TrackedChat("", false, false, false, map[])
  }

  /** The entry after the capability lookup, which creates entry and capability on first use. */
  function AfterCapability(chats: Chats, chat: ChatId, issue: Option<string>): Chats {
    var entry := Entry(chats, chat);
    chats[chat := if entry.capability == "" && issue.Some? && WellFormed(issue.value)
                  then entry.(capability := issue.value) else entry]
  }

  function AfterBegin(chats: Chats, chat: ChatId, issue: Option<string>): (Chats, Result<string, BeginError>) {
    if chat in chats && chats[chat].active then
      (chats, Err(ChatAlreadyActive))
    else
      var chats := AfterCapability(chats, chat, issue);
      var entry := chats[chat];
      if entry.capability == "" then
        (chats, Err(CapabilityGeneration))
      else if entry.cancelRequested then
        (chats[chat := entry.(cancelRequested := false, prepared := false)], Err(Cancelled))
      else
        (chats[chat := entry.(prepared := false, active := true)], Ok(entry.capability))
  }

  function AfterFinish(chats: Chats, chat: ChatId): Chats {
    if chat in chats
    then chats[chat := chats[chat].(active := false, prepared := false, cancelRequested := false)]
    else chats
  }

  function AfterPrepare(chats: Chats, chat: ChatId): Chats {
    if chat in chats && !chats[chat].active
    then chats[chat := chats[chat].(cancelRequested := false, prepared := true)]
    else chats
  }

  function AfterAddJob(chats: Chats, chat: ChatId, job: JobId, kind: JobKind): Chats {
    if chat in chats then
      var entry := chats[chat];
      chats[chat := entry.(jobs := entry.jobs[job := TrackedJob(kind, entry.cancelRequested)])]
    else chats
  }

  function AfterForget(chats: Chats, chat: ChatId, job: JobId): Chats {
    if chat in chats
    then chats[chat := chats[chat].(jobs := chats[chat].jobs - {job})]
    else chats
  }

  predicate Tracks(chats: Chats, chat: ChatId, job: JobId) {
    chat in chats && job in chats[chat].jobs
  }

  predicate Unclaimed(chats: Chats, chat: ChatId, job: JobId) {
    Tracks(chats, chat, job) && !chats[chat].jobs[job].cancelling
  }

  /** Set or clear the `cancelling` mark of one job; nothing happens to a job that is gone. */
  function AfterMark(chats: Chats, chat: ChatId, job: JobId, cancelling: bool): Chats {
    if Tracks(chats, chat, job) then
      var entry := chats[chat];
      chats[chat := entry.(jobs := entry.jobs[job := entry.jobs[job].(cancelling := cancelling)])]
    else chats
  }

  function MarkAll(jobs: map<JobId, TrackedJob>): map<JobId, TrackedJob> {
    map j | j in jobs :: jobs[j].(cancelling := true)
  }

  /** A cancel-all is let in only by the chat's own capability and only if there is something to cancel. */
  predicate MayCancelAll(chats: Chats, chat: ChatId, capability: string) {
    && chat in chats && chats[chat].capability == capability
    && (chats[chat].active || chats[chat].prepared || chats[chat].jobs != map[])
  }

  function AfterClaimAll(chats: Chats, chat: ChatId): Chats
    requires chat in chats
  {
    var entry := chats[chat];
    chats[chat := entry.(cancelRequested := entry.cancelRequested || entry.active || entry.prepared,
                         jobs := MarkAll(entry.jobs))]
  }

  /** The flags of one chat never contradict each other. */
  ghost predicate FlagsAgree(entry: TrackedChat) {
    && (entry.cancelRequested ==> entry.active || entry.prepared)
    && !(entry.active && entry.prepared)
  }

  /** Every chat keeps its capability and flags, and every job except perhaps this one is as it was. */
  ghost predicate OnlyJobChanges(chats: Chats, chats': Chats, chat: ChatId, job: JobId) {
    && chats'.Keys == chats.Keys
    && (forall c | c in chats ::
          && chats'[c].capability == chats[c].capability && chats'[c].active == chats[c].active
          && chats'[c].prepared == chats[c].prepared && chats'[c].cancelRequested == chats[c].cancelRequested)
    && forall c, j | c in chats && !(c == chat && j == job) ::
         && (j in chats'[c].jobs <==> j in chats[c].jobs)
         && (j in chats[c].jobs ==> chats'[c].jobs[j] == chats[c].jobs[j])
  }

  /** Every other chat is as it was, and no chat gains or loses a job. */
  ghost predicate OnlyFlagsChange(chats: Chats, chats': Chats, chat: ChatId) {
    && chats'.Keys == chats.Keys
    && forall c | c in chats ::
         && chats'[c].jobs == chats[c].jobs && chats'[c].capability == chats[c].capability
         && (c != chat ==> chats'[c] == chats[c])
  }

  /** Why the next begin of a chat may be refused although a capability can be had. */
  predicate Refused(chats: Chats, chat: ChatId) {
    chat in chats && (chats[chat].active || chats[chat].cancelRequested)
  }

  /** A begin with a usable capability starts the chat exactly when it is not refused. */
  lemma BeginUnlessRefused(chats: Chats, chat: ChatId, issue: Option<string>)
    requires Entry(chats, chat).capability != "" || (issue.Some? && WellFormed(issue.value))
    ensures AfterBegin(chats, chat, issue).1.Ok? <==> !Refused(chats, chat)
    ensures AfterBegin(chats, chat, issue).1.Ok? ==> AfterBegin(chats, chat, issue).0[chat].active
  {
  }

  /**
   What a begin reports. A cancel that was asked for before is reported once: it is consumed, so the next
   begin is not refused. A chat keeps the first capability it was given, and a begin returns it.
   */
  lemma BeginReports(chats: Chats, chat: ChatId, issue: Option<string>)
    ensures var (chats', r) := AfterBegin(chats, chat, issue);
      && (r == Err(ChatAlreadyActive) <==> chat in chats && chats[chat].active)
      && (r == Err(Cancelled) ==> Refused(chats, chat) && chat in chats' && !Refused(chats', chat))
      && (r == Err(Cancelled) || r.Ok? ==> !chats'[chat].prepared)
      && (r.Ok? ==> chat in chats' && r.value == chats'[chat].capability && r.value != "")
      && (r.Ok? ==> MayCancelAll(chats', chat, r.value))
      && (Entry(chats, chat).capability != "" ==> Entry(chats', chat).capability == Entry(chats, chat).capability)
      && Entry(chats', chat).jobs == Entry(chats, chat).jobs
      && forall c | c != chat :: (c in chats' <==> c in chats) && (c in chats ==> chats'[c] == chats[c])
  {
  }

  /** Giving back a claim undoes it, and only an unclaimed job's claim can be undone that way. */
  lemma ClaimGivenBack(chats: Chats, chat: ChatId, job: JobId)
    requires Tracks(chats, chat, job)
    ensures AfterMark(AfterMark(chats, chat, job, true), chat, job, false) == chats <==> Unclaimed(chats, chat, job)
  {
    var back := AfterMark(AfterMark(chats, chat, job, true), chat, job, false);
    if Unclaimed(chats, chat, job) {
      assert back[chat].jobs == chats[chat].jobs;
    } else {
      assert !back[chat].jobs[job].cancelling;
    }
  }

  class ExecutionTracker {
    var chats: Chats

    constructor ()
      ensures chats == map[]
    {
      chats := map[];
    }

    method Capability(chat: ChatId, issue: Option<string>) returns (r: Result<string, BeginError>)
      modifies this
      ensures chats == AfterCapability(old(chats), chat, issue)
      ensures r == if chats[chat].capability == "" then Err(CapabilityGeneration) else Ok(chats[chat].capability)
    {
      if chat !in chats {
        chats := chats[chat := TrackedChat("", false, false, false, map[])];
      }
      if chats[chat].capability == "" {
        if issue.None? || |issue.value| == 0 || |issue.value| > MAX_CAPABILITY {
          return Err(CapabilityGeneration);
        }
        chats := chats[chat := chats[chat].(capability := issue.value)];
      }
      r := Ok(chats[chat].capability);
    }

    method Begin(chat: ChatId, issue: Option<string>) returns (r: Result<string, BeginError>)
      modifies this
      ensures chats == AfterBegin(old(chats), chat, issue).0 && r == AfterBegin(old(chats), chat, issue).1
    {
      if chat in chats && chats[chat].active {
        return Err(ChatAlreadyActive);
      }
      r := Capability(chat, issue);
      if r.Err? {
        return;
      }
      if chats[chat].cancelRequested {
        chats := chats[chat := chats[chat].(cancelRequested := false)];
        chats := chats[chat := chats[chat].(prepared := false)];
        return Err(Cancelled);
      }
      chats := chats[chat := chats[chat].(prepared := false)];
      chats := chats[chat := chats[chat].(active := true)];
    }

    /** The chat may begin again, and only its jobs still keep it pending. */
    method Finish(chat: ChatId)
      modifies this
      ensures chats == AfterFinish(old(chats), chat)
      ensures OnlyFlagsChange(old(chats), chats, chat) && !Refused(chats, chat)
      ensures chat in chats ==> FlagsAgree(chats[chat]) && (chats[chat].HasPendingJobs() <==> chats[chat].jobs != map[])
    {
      if chat in chats {
        chats := chats[chat := chats[chat].(active := false, prepared := false, cancelRequested := false)];
      }
    }

    /** A chat that is not running may begin next, and may be cancelled before it does; a running one is left alone. */
    method Prepare(chat: ChatId)
      modifies this
      ensures chats == AfterPrepare(old(chats), chat)
      ensures OnlyFlagsChange(old(chats), chats, chat)
      ensures chat in chats && chats[chat].active ==> chats == old(chats)
      ensures chat in chats && !chats[chat].active ==>
        !Refused(chats, chat) && MayCancelAll(chats, chat, chats[chat].capability)
    {
      if chat in chats && !chats[chat].active {
        chats := chats[chat := chats[chat].(cancelRequested := false, prepared := true)];
      }
    }

    method AddJob(chat: ChatId, job: JobId, kind: JobKind) returns (claimed: bool)
      modifies this
      ensures chats == AfterAddJob(old(chats), chat, job, kind)
      ensures claimed <==> Tracks(chats, chat, job) && chats[chat].cancelRequested
      ensures claimed <==> Tracks(chats, chat, job) && chats[chat].jobs[job].cancelling
    {
      if chat !in chats {
        return false;
      }
      claimed := chats[chat].cancelRequested;
      chats := chats[chat := chats[chat].(jobs := chats[chat].jobs[job := TrackedJob(kind, claimed)])];
    }

    /** The job is no longer tracked, so no cancel can claim it; every other job and every flag stays. */
    method ForgetJob(chat: ChatId, job: JobId)
      modifies this
      ensures chats == AfterForget(old(chats), chat, job)
      ensures !Tracks(chats, chat, job) && OnlyJobChanges(old(chats), chats, chat, job)
    {
      if chat in chats {
        chats := chats[chat := chats[chat].(jobs := chats[chat].jobs - {job})];
      }
    }

    /** The internal claim; the public one below first checks the bearer capability. */
    method ClaimInternalCancel(chat: ChatId, job: JobId) returns (kind: Option<JobKind>)
      modifies this
      ensures kind.Some? <==> Unclaimed(old(chats), chat, job)
      ensures kind.Some? ==> kind.value == old(chats)[chat].jobs[job].kind
                             && chats == AfterMark(old(chats), chat, job, true)
      ensures kind.None? ==> chats == old(chats)
    {
      if !Tracks(chats, chat, job) || chats[chat].jobs[job].cancelling {
        return None;
      }
      kind := Some(chats[chat].jobs[job].kind);
      chats := chats[chat := chats[chat].(jobs :=
        chats[chat].jobs[job := chats[chat].jobs[job].(cancelling := true)])];
    }

    method ClaimCancel(chat: ChatId, capability: string, job: JobId) returns (kind: Option<JobKind>)
      modifies this
      ensures kind.Some? <==> Unclaimed(old(chats), chat, job) && old(chats)[chat].capability == capability
      ensures kind.Some? ==> kind.value == old(chats)[chat].jobs[job].kind
                             && chats == AfterMark(old(chats), chat, job, true)
      ensures kind.None? ==> chats == old(chats)
    {
      if chat !in chats || chats[chat].capability != capability {
        return None;
      }
      kind := ClaimInternalCancel(chat, job);
    }

    /**
     Claim every job that no one has claimed. The answer lists exactly those jobs. There is none when
     nothing was claimable, unless the chat has no job and no cancel was requested before; a request
     recorded while every job is already being cancelled gets no answer either.
     */
    method ClaimAllCancels(chat: ChatId, capability: string) returns (r: Option<map<JobId, JobKind>>)
      modifies this
      ensures !MayCancelAll(old(chats), chat, capability) ==> r.None? && chats == old(chats)
      ensures MayCancelAll(old(chats), chat, capability) ==> chats == AfterClaimAll(old(chats), chat)
      ensures r.Some? ==> chat in old(chats) && r.value.Keys == old(chats)[chat].Claimable()
                          && forall j | j in r.value :: r.value[j] == old(chats)[chat].jobs[j].kind
      ensures r.Some? <==>
        && chat in old(chats) && old(chats)[chat].capability == capability
        && (old(chats)[chat].active || old(chats)[chat].prepared || old(chats)[chat].jobs != map[])
        && (old(chats)[chat].Claimable() != {}
            || (old(chats)[chat].jobs == map[] && !old(chats)[chat].cancelRequested))
    {
      if chat !in chats || chats[chat].capability != capability {
        return None;
      }
      var entry := chats[chat];
      if !entry.active && !entry.prepared && entry.jobs == map[] {
        return None;
      }
      var running := entry.active || entry.prepared;
      var newRequest := running && !entry.cancelRequested;
      var jobs, claimed := entry.jobs, map[];
      var rest := entry.jobs.Keys;
      while rest != {}
        invariant rest <= jobs.Keys == entry.jobs.Keys
        invariant forall j | j in jobs ::
          jobs[j] == if j in rest then entry.jobs[j] else entry.jobs[j].(cancelling := true)
        invariant claimed.Keys == entry.Claimable() - rest
        invariant forall j | j in claimed :: claimed[j] == entry.jobs[j].kind
      {
        var j :| j in rest;
        if !jobs[j].cancelling {
          claimed := claimed[j := jobs[j].kind];
          jobs := jobs[j := jobs[j].(cancelling := true)];
        }
        rest := rest - {j};
      }
      assert jobs == MarkAll(entry.jobs);
      chats := chats[chat := entry.(cancelRequested := entry.cancelRequested || running, jobs := jobs)];
      if claimed != map[] || (entry.jobs == map[] && newRequest) {
        r := Some(claimed);
      } else {
        assert claimed.Keys == {};
        r := None;
      }
    }

    /** A job that is still tracked can be claimed again; nothing else changes. */
    method CancelFailed(chat: ChatId, job: JobId)
      modifies this
      ensures chats == AfterMark(old(chats), chat, job, false)
      ensures Tracks(old(chats), chat, job) ==> Unclaimed(chats, chat, job)
      ensures !Tracks(old(chats), chat, job) ==> chats == old(chats)
      ensures OnlyJobChanges(old(chats), chats, chat, job)
    {
      if Tracks(chats, chat, job) {
        chats := chats[chat := chats[chat].(jobs :=
          chats[chat].jobs[job := chats[chat].jobs[job].(cancelling := false)])];
      }
    }
  }
}
