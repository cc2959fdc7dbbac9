/**
 The backend's session registry. A session belongs to one orchestrator; an execution that works on it
 holds a lease. Every section under the registry's lock is one step, and the steps of concurrent
 requests, of the sweeper and of dropped guards interleave freely.
 */
module Sessions {
  import opened Base
  import opened Tracker

  /** The identity of an orchestrator, which is also the identity of its session. */
  type Owner(==, !new)
  type LeaseId(==, !new)

  datatype Session = Session(owner: Owner, expires: Option<nat>)

  /** What an execution guard holds. */
  datatype Lease = Lease(chat: ChatId, owner: Owner)

  datatype Busy = Busy

  type Stored = map<ChatId, Session>
  type Uses = map<Owner, nat>
  type Leases = map<LeaseId, Lease>
  type Trackers = map<Owner, Chats>

  datatype Registry = Registry(
    sessions: Stored,
    uses: Uses,                      // each session's use counter
    orphaned: set<Owner>,            // sessions set aside for cleanup
    trackers: Trackers,              // what each orchestrator's tracker holds
    leases: Leases,                  // execution guards that are alive
    starting: map<ChatId, Owner>)    // new chats before their lease; their ids are not handed out yet

  function UsesOf(uses: Uses, owner: Owner): nat { if owner in uses then uses[owner] else 0 }

  predicate Expired(s: Session, now: nat) { s.expires.Some? && s.expires.value <= now }

  function TrackerOf(trackers: Trackers, owner: Owner): Chats {
    if owner in trackers then trackers[owner] else map[]
  }

  /** The orchestrator still has something to do for the chat. */
  predicate Pending(trackers: Trackers, chat: ChatId, owner: Owner) {
    var chats := TrackerOf(trackers, owner);
    chat in chats && chats[chat].HasPendingJobs()
  }

  predicate OwnsJobs(trackers: Trackers, chat: ChatId, owner: Owner) {
    var chats := TrackerOf(trackers, owner);
    chat in chats && chats[chat].jobs != map[]
  }

  /** A session may go when its approval expired, nobody uses it and its chat has no work. */
  predicate Disposable(chat: ChatId, s: Session, uses: Uses, trackers: Trackers, now: nat) {
    Expired(s, now) && UsesOf(uses, s.owner) == 0 && !Pending(trackers, chat, s.owner)
  }

  predicate Free(uses: Uses, orphaned: set<Owner>, owner: Owner) {
    UsesOf(uses, owner) == 0 && owner !in orphaned
  }

  predicate IsStored(sessions: Stored, chat: ChatId, owner: Owner) {
    chat in sessions && sessions[chat].owner == owner
  }

  // ----- Steps -----

  datatype Step =
    | Create(chat: ChatId, owner: Owner, streaming: bool)
    | AcquireForStart(chat: ChatId, lease: LeaseId)
    | LookUp(chat: ChatId, lease: LeaseId, now: nat)
    | Remember(chat: ChatId, restored: Owner, lease: LeaseId)
    | Disarm(lease: LeaseId)
    | DropArmed(lease: LeaseId)
    | Sweep(now: nat)
    | MarkExpiry(chat: ChatId, owner: Owner, expires: nat)
    | Finish(chat: ChatId, owner: Owner)
    | RemoveIfSame(chat: ChatId, owner: Owner)
    | Track(owner: Owner, chats: Chats)

  predicate IsNew(s: Registry, owner: Owner) {
    owner !in s.uses && owner !in s.orphaned
  }

  predicate Enabled(s: Registry, step: Step) {
    match step
    case Create(chat, owner, _) => IsNew(s, owner) && chat !in s.starting
    case AcquireForStart(chat, lease) => chat in s.starting && lease !in s.leases
    case LookUp(chat, lease, _) => lease !in s.leases
    case Remember(chat, restored, lease) => lease !in s.leases && IsNew(s, restored)
    case Disarm(lease) => lease in s.leases
    case DropArmed(lease) => lease in s.leases
    case _ => true
  }

  /** A client cannot name a chat whose id has not been handed out. */
  predicate HandedOut(s: Registry, step: Step) {
    step.LookUp? || step.Remember? ==> step.chat !in s.starting
  }

  function Acquired(s: Registry, chat: ChatId, owner: Owner, lease: LeaseId): Registry {
    s.(uses := s.uses[owner := UsesOf(s.uses, owner) + 1], leases := s.leases[lease := Lease(chat, owner)])
  }

  function Released(s: Registry, lease: LeaseId): Registry
    requires lease in s.leases
  {
    var owner := s.leases[lease].owner;
    s.(uses := s.uses[owner := if UsesOf(s.uses, owner) == 0 then 0 else UsesOf(s.uses, owner) - 1],
       leases := s.leases - {lease})
  }

  function Evicted(s: Registry, chat: ChatId, now: nat): Registry {
    if chat in s.sessions && Disposable(chat, s.sessions[chat], s.uses, s.trackers, now)
    then s.(sessions := s.sessions - {chat}) else s
  }

  function Inserted(s: Registry, chat: ChatId, owner: Owner): Registry {
    s.(uses := s.uses[owner := 0], sessions := s.sessions[chat := Session(owner, None)])
  }

  predicate MayLease(s: Registry, chat: ChatId) {
    chat in s.sessions && Free(s.uses, s.orphaned, s.sessions[chat].owner)
  }

  function After(s: Registry, step: Step): Registry
    requires Enabled(s, step)
  {
    match step
    case Create(chat, owner, streaming) =>
      if chat in s.sessions then s
      else
        var s' := Inserted(s, chat, owner);
        if streaming then s' else s'.(starting := s.starting[chat := owner])
    case AcquireForStart(chat, lease) =>
      Acquired(s.(starting := s.starting - {chat}), chat, s.starting[chat], lease)
    case LookUp(chat, lease, now) =>
      var s' := Evicted(s, chat, now);
      if MayLease(s', chat) then Acquired(s', chat, s'.sessions[chat].owner, lease) else s'
    case Remember(chat, restored, lease) =>
      var s' := if chat in s.sessions then s else Inserted(s, chat, restored);
      if MayLease(s', chat) then Acquired(s', chat, s'.sessions[chat].owner, lease) else s
    case Disarm(lease) => Released(s, lease)
    case DropArmed(lease) =>
      var (chat, owner) := (s.leases[lease].chat, s.leases[lease].owner);
      var s' := Released(s, lease);
      if !IsStored(s.sessions, chat, owner) then s'
      else if OwnsJobs(s.trackers, chat, owner) then s'.(orphaned := s.orphaned + {owner})
      else s'.(sessions := s.sessions - {chat})
    case Sweep(now) =>
      s.(sessions := map c | c in s.sessions && !Disposable(c, s.sessions[c], s.uses, s.trackers, now) :: s.sessions[c])
    case MarkExpiry(chat, owner, expires) =>
      if IsStored(s.sessions, chat, owner)
      then s.(sessions := s.sessions[chat := s.sessions[chat].(expires := Some(expires))]) else s
    // The end of a chat, and a cancel of a chat that awaits its cleanup.
    case Finish(chat, owner) => if Pending(s.trackers, chat, owner) then s else s.(sessions := s.sessions - {chat})
    case RemoveIfSame(chat, owner) =>
      if IsStored(s.sessions, chat, owner) then s.(sessions := s.sessions - {chat}) else s
    case Track(owner, chats) => s.(trackers := s.trackers[owner := chats])
  }

  // ----- Invariant -----

  /** Each lease is the one use of its session, and each use is a lease. */
  predicate LeasesOk(uses: Uses, leases: Leases, holder: map<Owner, LeaseId>) {
    && (forall l | l in leases ::
          leases[l].owner in uses && leases[l].owner in holder && holder[leases[l].owner] == l)
    && (forall o | o in holder :: holder[o] in leases && leases[holder[o]].owner == o)
    && (forall o | o in uses :: uses[o] == if o in holder then 1 else 0)
  }

  /** No two chats share a session. */
  predicate StoredOk(sessions: Stored, uses: Uses) {
    && (forall c | c in sessions :: sessions[c].owner in uses)
    && forall c, d | c in sessions && d in sessions && c != d :: sessions[c].owner != sessions[d].owner
  }

  /** A chat that is being started has a session of its own, which nobody uses and nobody set aside. */
  predicate StartingOk(s: Registry, holder: map<Owner, LeaseId>) {
    && (forall c | c in s.starting ::
          s.starting[c] in s.uses && s.starting[c] !in holder && s.starting[c] !in s.orphaned)
    && (forall c, d | c in s.starting && d in s.starting && c != d :: s.starting[c] != s.starting[d])
    && forall c, d | c in s.starting && d in s.sessions && s.sessions[d].owner == s.starting[c] :: c == d
  }

  ghost predicate InvWith(s: Registry, holder: map<Owner, LeaseId>) {
    LeasesOk(s.uses, s.leases, holder) && StoredOk(s.sessions, s.uses) && StartingOk(s, holder)
  }

  ghost predicate Inv(s: Registry) {
    exists holder :: InvWith(s, holder)
  }

  predicate Leased(leases: Leases, owner: Owner) {
    exists l | l in leases :: leases[l].owner == owner
  }

  lemma UsedIffLeased(s: Registry, holder: map<Owner, LeaseId>, owner: Owner)
    requires LeasesOk(s.uses, s.leases, holder)
    ensures UsesOf(s.uses, owner) != 0 <==> Leased(s.leases, owner)
    ensures owner in holder <==> Leased(s.leases, owner)
  {
    if owner in holder {
      assert s.leases[holder[owner]].owner == owner;
    }
  }

  lemma AcquiredKeeps(s: Registry, chat: ChatId, owner: Owner, lease: LeaseId, holder: map<Owner, LeaseId>)
    requires InvWith(s, holder) && lease !in s.leases && owner in s.uses && s.uses[owner] == 0
    requires forall c | c in s.starting :: s.starting[c] != owner
    ensures InvWith(Acquired(s, chat, owner, lease), holder[owner := lease])
  {
  }

  lemma ReleasedKeeps(s: Registry, lease: LeaseId, holder: map<Owner, LeaseId>)
    requires InvWith(s, holder) && lease in s.leases
    ensures InvWith(Released(s, lease), holder - {s.leases[lease].owner})
    ensures !Leased(Released(s, lease).leases, s.leases[lease].owner)
  {
  }

  lemma InsertedKeeps(s: Registry, chat: ChatId, owner: Owner, holder: map<Owner, LeaseId>)
    requires InvWith(s, holder) && chat !in s.sessions && IsNew(s, owner)
    ensures InvWith(Inserted(s, chat, owner), holder) && owner !in holder
    ensures forall c | c in s.starting :: s.starting[c] != owner
  {
  }

  /** Removing sessions does no harm. */
  lemma FewerKeeps(s: Registry, sessions: Stored, holder: map<Owner, LeaseId>)
    requires InvWith(s, holder) && forall c | c in sessions :: IsStored(s.sessions, c, sessions[c].owner)
    ensures InvWith(s.(sessions := sessions), holder)
  {
  }

  /** The session of a chat that is being started is its own. */
  lemma StartingKeeps(s: Registry, chat: ChatId, owner: Owner, holder: map<Owner, LeaseId>)
    requires InvWith(s, holder) && IsStored(s.sessions, chat, owner) && owner !in holder && owner !in s.orphaned
    requires forall c | c in s.starting :: s.starting[c] != owner
    ensures InvWith(s.(starting := s.starting[chat := owner]), holder)
  {
  }

  lemma CreateKeeps(s: Registry, chat: ChatId, owner: Owner, streaming: bool)
    requires Inv(s) && Enabled(s, Create(chat, owner, streaming))
    ensures Inv(After(s, Create(chat, owner, streaming)))
  {
    var holder :| InvWith(s, holder);
    if chat !in s.sessions {
      InsertedKeeps(s, chat, owner, holder);
      StartingKeeps(Inserted(s, chat, owner), chat, owner, holder);
    }
  }

  lemma LeaseKeeps(s: Registry, chat: ChatId, lease: LeaseId)
    requires Inv(s) && chat !in s.starting && lease !in s.leases && MayLease(s, chat)
    ensures Inv(Acquired(s, chat, s.sessions[chat].owner, lease))
    ensures !Leased(s.leases, s.sessions[chat].owner)
  {
    var holder :| InvWith(s, holder);
    var owner := s.sessions[chat].owner;
    UsedIffLeased(s, holder, owner);
    AcquiredKeeps(s, chat, owner, lease, holder);
  }

  lemma EvictedKeeps(s: Registry, chat: ChatId, now: nat)
    requires Inv(s)
    ensures Inv(Evicted(s, chat, now))
  {
    var holder :| InvWith(s, holder);
    FewerKeeps(s, Evicted(s, chat, now).sessions, holder);
    assert InvWith(Evicted(s, chat, now), holder);
  }

  lemma ResumeKeeps(s: Registry, step: Step)
    requires Inv(s) && Enabled(s, step) && HandedOut(s, step) && (step.LookUp? || step.Remember?)
    ensures Inv(After(s, step))
  {
    if step.LookUp? {
      EvictedKeeps(s, step.chat, step.now);
      if MayLease(Evicted(s, step.chat, step.now), step.chat) {
        LeaseKeeps(Evicted(s, step.chat, step.now), step.chat, step.lease);
      }
    } else {
      var s' := if step.chat in s.sessions then s else Inserted(s, step.chat, step.restored);
      if step.chat !in s.sessions {
        var holder :| InvWith(s, holder);
        InsertedKeeps(s, step.chat, step.restored, holder);
        assert InvWith(s', holder);
      }
      if MayLease(s', step.chat) {
        LeaseKeeps(s', step.chat, step.lease);
      }
    }
  }

  lemma EndKeeps(s: Registry, step: Step)
    requires Inv(s) && Enabled(s, step) && (step.Disarm? || step.DropArmed?)
    ensures Inv(After(s, step))
  {
    var holder :| InvWith(s, holder);
    var owner, chat := s.leases[step.lease].owner, s.leases[step.lease].chat;
    var holder', s' := holder - {owner}, Released(s, step.lease);
    ReleasedKeeps(s, step.lease, holder);
    assert forall c | c in s.starting :: s.starting[c] != owner;
    FewerKeeps(s', s'.sessions - {chat}, holder');
    assert InvWith(s'.(orphaned := s.orphaned + {owner}), holder');
    assert InvWith(After(s, step), holder');
  }

  lemma StartKeeps(s: Registry, chat: ChatId, lease: LeaseId)
    requires Inv(s) && Enabled(s, AcquireForStart(chat, lease))
    ensures Inv(After(s, AcquireForStart(chat, lease)))
    ensures !Leased(s.leases, s.starting[chat])
  {
    var holder :| InvWith(s, holder);
    var owner, s' := s.starting[chat], s.(starting := s.starting - {chat});
    UsedIffLeased(s, holder, owner);
    assert InvWith(s', holder);
    AcquiredKeeps(s', chat, owner, lease, holder);
  }

  lemma RestKeeps(s: Registry, step: Step)
    requires Inv(s) && Enabled(s, step)
    requires step.Sweep? || step.MarkExpiry? || step.Finish? || step.RemoveIfSame? || step.Track?
    ensures Inv(After(s, step))
  {
    var holder :| InvWith(s, holder);
    FewerKeeps(s, After(s, step).sessions, holder);
    assert InvWith(After(s, step), holder);
  }

  lemma StepKeeps(s: Registry, step: Step)
    requires Inv(s) && Enabled(s, step) && HandedOut(s, step)
    ensures Inv(After(s, step))
  {
    match step
    case Create(chat, owner, streaming) => CreateKeeps(s, chat, owner, streaming);
    case AcquireForStart(chat, lease) => StartKeeps(s, chat, lease);
    case LookUp(_, _, _) => ResumeKeeps(s, step);
    case Remember(_, _, _) => ResumeKeeps(s, step);
    case Disarm(_) => EndKeeps(s, step);
    case DropArmed(_) => EndKeeps(s, step);
    case _ => RestKeeps(s, step);
  }

  // ----- Whole runs -----

  predicate IsRun(states: seq<Registry>, steps: seq<Step>) {
    && |states| == |steps| + 1 && states[0] == Registry(map[], map[], {}, map[], map[], map[])
    && forall i | 0 <= i < |steps| ::
         Enabled(states[i], steps[i]) && HandedOut(states[i], steps[i]) && states[i + 1] == After(states[i], steps[i])
  }

  lemma {:induction false} RunKeeps(states: seq<Registry>, steps: seq<Step>, k: nat)
    requires IsRun(states, steps) && k < |states|
    ensures Inv(states[k])
  {
    if k == 0 {
      assert InvWith(states[0], map[]);
    } else {
      RunKeeps(states, steps, k - 1);
      StepKeeps(states[k - 1], steps[k - 1]);
    }
  }

  /** In every run two leases are never on the same session. */
  lemma LeasesAreExclusive(states: seq<Registry>, steps: seq<Step>, k: nat, l: LeaseId, m: LeaseId)
    requires IsRun(states, steps) && k < |states| && l in states[k].leases && m in states[k].leases && l != m
    ensures states[k].leases[l].owner != states[k].leases[m].owner
  {
    RunKeeps(states, steps, k);
  }

  /** In every run a resume leases only a stored session that is neither leased nor orphaned. */
  lemma ResumeObtainsFreeSession(states: seq<Registry>, steps: seq<Step>, k: nat)
    requires IsRun(states, steps) && k < |steps| && (steps[k].LookUp? || steps[k].Remember?)
    requires steps[k].lease in states[k + 1].leases
    ensures var owner := states[k + 1].leases[steps[k].lease].owner;
      && IsStored(states[k + 1].sessions, steps[k].chat, owner)
      && !Leased(states[k].leases, owner) && owner !in states[k].orphaned
  {
    RunKeeps(states, steps, k);
    RunKeeps(states, steps, k + 1);
    var s, owner := states[k], states[k + 1].leases[steps[k].lease].owner;
    var holder :| InvWith(s, holder);
    UsedIffLeased(s, holder, owner);
  }

  /**
   In every run, what the sweeper, an expired resume or a dropped guard removes is not leased by anyone
   else, and its chat owns no job.
   */
  lemma RemovalIsSafe(states: seq<Registry>, steps: seq<Step>, k: nat, chat: ChatId)
    requires IsRun(states, steps) && k < |steps| && (steps[k].Sweep? || steps[k].LookUp? || steps[k].DropArmed?)
    requires chat in states[k].sessions && chat !in states[k + 1].sessions
    ensures var owner := states[k].sessions[chat].owner;
      !Leased(states[k + 1].leases, owner) && !OwnsJobs(states[k].trackers, chat, owner)
  {
    RunKeeps(states, steps, k);
    var s, owner := states[k], states[k].sessions[chat].owner;
    var holder :| InvWith(s, holder);
    UsedIffLeased(s, holder, owner);
    if steps[k].DropArmed? {
      ReleasedKeeps(s, steps[k].lease, holder);
    }
  }

  /** A step adds at most one lease, and never on an orphaned session. */
  lemma NewLease(s: Registry, step: Step, l: LeaseId)
    requires Enabled(s, step) && l in After(s, step).leases
    requires forall c | c in s.starting :: s.starting[c] !in s.orphaned
    ensures (l in s.leases && After(s, step).leases[l] == s.leases[l]) || After(s, step).leases[l].owner !in s.orphaned
  {
  }

  lemma StepLeavesOrphan(s: Registry, step: Step, owner: Owner)
    requires Inv(s) && Enabled(s, step) && owner in s.orphaned && !Leased(s.leases, owner)
    ensures owner in After(s, step).orphaned && !Leased(After(s, step).leases, owner)
  {
    var s' := After(s, step);
    var holder :| InvWith(s, holder);
    forall l | l in s'.leases ensures s'.leases[l].owner != owner {
      NewLease(s, step, l);
    }
  }

  /** An orphaned session that nobody holds is never leased again: no successor before its cleanup. */
  lemma {:induction false} OrphanHasNoSuccessor(states: seq<Registry>, steps: seq<Step>, i: nat, k: nat, owner: Owner)
    requires IsRun(states, steps) && i <= k < |states|
    requires owner in states[i].orphaned && !Leased(states[i].leases, owner)
    ensures owner in states[k].orphaned && !Leased(states[k].leases, owner)
  {
    if i < k {
      OrphanHasNoSuccessor(states, steps, i, k - 1, owner);
      RunKeeps(states, steps, k - 1);
      StepLeavesOrphan(states[k - 1], steps[k - 1], owner);
    }
  }

  /**
   The sweeper, and a resume of its chat, remove exactly the sessions whose deadline has passed, that nobody
   uses and whose chat has no work. A session without a deadline stays, and no other chat is touched.
   */
  lemma OnlyExpiredGo(s: Registry, step: Step, now: nat, chat: ChatId)
    requires chat in s.sessions && Enabled(s, step)
    requires step == Sweep(now) || (step.LookUp? && step.now == now)
    ensures chat !in After(s, step).sessions <==>
      && (step.LookUp? ==> step.chat == chat)
      && s.sessions[chat].expires.Some? && s.sessions[chat].expires.value <= now
      && UsesOf(s.uses, s.sessions[chat].owner) == 0 && !Pending(s.trackers, chat, s.sessions[chat].owner)
    ensures chat in After(s, step).sessions ==> After(s, step).sessions[chat] == s.sessions[chat]
  {
  }

  /** The only lease on a session is the one that ends. */
  lemma NoLeaseLeft(s: Registry, lease: LeaseId)
    requires Inv(s) && lease in s.leases
    ensures !Leased(Released(s, lease).leases, s.leases[lease].owner)
    ensures UsesOf(Released(s, lease).uses, s.leases[lease].owner) == 0
  {
    var holder :| InvWith(s, holder);
    ReleasedKeeps(s, lease, holder);
  }

  // ----- The registry itself -----

  class SessionRegistry {
    var sessions: Stored
    var uses: Uses
    var orphaned: set<Owner>
    var trackers: Trackers
    var leases: Leases
    var starting: map<ChatId, Owner>

    function Value(): Registry
      reads this
    {
      Registry(sessions, uses, orphaned, trackers, leases, starting)
    }

    constructor ()
      ensures Value() == Registry(map[], map[], {}, map[], map[], map[])
    {
      sessions, uses, orphaned, trackers, leases, starting := map[], map[], {}, map[], map[], map[];
    }

    method CreateSession(chat: ChatId, owner: Owner, streaming: bool) returns (r: Result<(), Busy>)
      requires Enabled(Value(), Create(chat, owner, streaming))
      modifies this
      ensures Value() == After(old(Value()), Create(chat, owner, streaming))
      ensures r.Ok? <==> chat !in old(sessions)
      ensures r.Ok? ==> IsStored(sessions, chat, owner) && Free(uses, orphaned, owner)
      ensures r.Ok? && !streaming ==> chat in starting && starting[chat] == owner
      ensures r.Err? ==> Value() == old(Value())
      ensures Inv(old(Value())) ==> Inv(Value())
    {
      if Inv(Value()) {
        StepKeeps(Value(), Create(chat, owner, streaming));
      }
      if chat in sessions {
        return Err(Busy);
      }
      uses := uses[owner := 0];
      sessions := sessions[chat := Session(owner, None)];
      if !streaming {
        starting := starting[chat := owner];
      }
      return Ok(());
    }

    method AcquireUse(chat: ChatId, owner: Owner, lease: LeaseId)
      modifies this`uses, this`leases
      ensures Value() == Acquired(old(Value()), chat, owner, lease)
    {
      uses := uses[owner := UsesOf(uses, owner) + 1];
      leases := leases[lease := Lease(chat, owner)];
    }

    /** A new chat takes its lease without looking, and it is the only one on the chat's session. */
    method StartChat(chat: ChatId, lease: LeaseId)
      requires Enabled(Value(), AcquireForStart(chat, lease))
      modifies this
      ensures Value() == After(old(Value()), AcquireForStart(chat, lease))
      ensures lease in leases && leases[lease].owner == old(starting)[chat]
      ensures Inv(old(Value())) ==> Inv(Value()) && !Leased(old(leases), leases[lease].owner)
    {
      if Inv(Value()) {
        StartKeeps(Value(), chat, lease);
      }
      var owner := starting[chat];
      starting := starting - {chat};
      AcquireUse(chat, owner, lease);
    }

    /**
     Evict an expired session and lease what is stored: the chat's session is leased if and only if it is
     stored then, unused and not orphaned.
     */
    method SessionForResume(chat: ChatId, lease: LeaseId, now: nat) returns (r: Result<Option<Owner>, Busy>)
      requires lease !in leases
      modifies this
      ensures Value() == After(old(Value()), LookUp(chat, lease, now))
      ensures r == Ok(None) <==> chat !in sessions
      ensures r.Ok? && r.value.Some? <==> lease in leases
      ensures r.Ok? && r.value.Some? ==>
        && IsStored(sessions, chat, r.value.value) && leases[lease] == Lease(chat, r.value.value)
        && Free(old(uses), orphaned, r.value.value)
      ensures r.Err? ==> chat in sessions && !Free(uses, orphaned, sessions[chat].owner)
      ensures Inv(old(Value())) && chat !in starting ==> Inv(Value())
    {
      if Inv(Value()) && chat !in starting {
        StepKeeps(Value(), LookUp(chat, lease, now));
      }
      var expiredAndIdle :=
        && chat in sessions && Expired(sessions[chat], now)
        && UsesOf(uses, sessions[chat].owner) == 0 && !Pending(trackers, chat, sessions[chat].owner);
      if expiredAndIdle {
        sessions := sessions - {chat};
      }
      if chat !in sessions {
        return Ok(None);
      }
      var owner := sessions[chat].owner;
      if UsesOf(uses, owner) != 0 || owner in orphaned {
        return Err(Busy);
      }
      AcquireUse(chat, owner, lease);
      return Ok(Some(owner));
    }

    /** Lease what is stored, after storing the restored session if nothing is. */
    method RememberSessionForResume(chat: ChatId, restored: Owner, lease: LeaseId) returns (r: Result<Owner, Busy>)
      requires lease !in leases && IsNew(Value(), restored)
      modifies this
      ensures Value() == After(old(Value()), Remember(chat, restored, lease))
      ensures r.Ok? <==> lease in leases
      ensures r.Ok? ==>
        && IsStored(sessions, chat, r.value) && leases[lease] == Lease(chat, r.value)
        && Free(old(uses), orphaned, r.value)
        && (r.value == restored || IsStored(old(sessions), chat, r.value))
      ensures r.Err? ==> Value() == old(Value())
      ensures Inv(old(Value())) && chat !in starting ==> Inv(Value())
    {
      if Inv(Value()) && chat !in starting {
        StepKeeps(Value(), Remember(chat, restored, lease));
      }
      if chat in sessions && (UsesOf(uses, sessions[chat].owner) != 0 || sessions[chat].owner in orphaned) {
        return Err(Busy);
      }
      if chat !in sessions {
        uses := uses[restored := 0];
        sessions := sessions[chat := Session(restored, None)];
      }
      AcquireUse(chat, sessions[chat].owner, lease);
      return Ok(sessions[chat].owner);
    }

    /** The lease ends, and with it every use of its session: the next resume may have it. */
    method DisarmGuard(lease: LeaseId)
      requires lease in leases
      modifies this`uses, this`leases
      ensures Value() == After(old(Value()), Disarm(lease))
      ensures lease !in leases && sessions == old(sessions) && orphaned == old(orphaned)
      ensures Inv(old(Value())) ==>
        && Inv(Value()) && !Leased(leases, old(leases)[lease].owner) && UsesOf(uses, old(leases)[lease].owner) == 0
    {
      if Inv(Value()) {
        StepKeeps(Value(), Disarm(lease));
        NoLeaseLeft(Value(), lease);
      }
      var owner := leases[lease].owner;
      uses := uses[owner := if UsesOf(uses, owner) == 0 then 0 else UsesOf(uses, owner) - 1];
      leases := leases - {lease};
    }

    /**
     A guard dropped while armed leaves no lease on its session. The session is gone unless its chat owns a
     job; then it is orphaned, and still stored, so that its cleanup can find it. Other chats keep theirs.
     */
    method DropGuard(lease: LeaseId)
      requires lease in leases
      modifies this
      ensures Value() == After(old(Value()), DropArmed(lease))
      ensures Inv(old(Value())) ==> Inv(Value()) && !Leased(leases, old(leases)[lease].owner)
      ensures var chat, owner := old(leases)[lease].chat, old(leases)[lease].owner;
        && (IsStored(sessions, chat, owner) ==> OwnsJobs(trackers, chat, owner) && owner in orphaned)
        && (IsStored(old(sessions), chat, owner) && OwnsJobs(trackers, chat, owner) ==> sessions == old(sessions))
        && (forall c | c != chat :: c in sessions <==> c in old(sessions))
        && (forall c | c in sessions :: sessions[c] == old(sessions)[c])
    {
      if Inv(Value()) {
        StepKeeps(Value(), DropArmed(lease));
        NoLeaseLeft(Value(), lease);
      }
      var chat, owner := leases[lease].chat, leases[lease].owner;
      if chat in sessions && sessions[chat].owner == owner {
        if OwnsJobs(trackers, chat, owner) {
          orphaned := orphaned + {owner};
        } else {
          sessions := sessions - {chat};
        }
      }
      uses := uses[owner := if UsesOf(uses, owner) == 0 then 0 else UsesOf(uses, owner) - 1];
      leases := leases - {lease};
    }

    method SweepExpiredSessions(now: nat)
      modifies this`sessions
      ensures Value() == After(old(Value()), Sweep(now))
      ensures Inv(old(Value())) ==> Inv(Value())
    {
      if Inv(Value()) {
        StepKeeps(Value(), Sweep(now));
      }
      var chats, kept: Stored := sessions.Keys, map[];
      while chats != {}
        invariant chats <= sessions.Keys && sessions == old(sessions)
        invariant kept ==
          map c | c in sessions && c !in chats && !Disposable(c, sessions[c], uses, trackers, now) :: sessions[c]
        decreases chats
      {
        var c :| c in chats;
        var expired, inUse := Expired(sessions[c], now), UsesOf(uses, sessions[c].owner) != 0;
        if !expired || inUse || Pending(trackers, c, sessions[c].owner) {
          kept := kept[c := sessions[c]];
        }
        chats := chats - {c};
      }
      sessions := kept;
    }

    /** A session that is still stored cannot be swept or evicted before its new deadline. */
    method MarkApprovalExpiry(chat: ChatId, owner: Owner, expires: nat)
      modifies this`sessions
      ensures Value() == After(old(Value()), MarkExpiry(chat, owner, expires))
      ensures forall c, o :: IsStored(sessions, c, o) <==> IsStored(old(sessions), c, o)
      ensures IsStored(sessions, chat, owner) ==>
        forall now: nat | now < expires :: !Disposable(chat, sessions[chat], uses, trackers, now)
      ensures Inv(old(Value())) ==> Inv(Value())
    {
      if Inv(Value()) {
        StepKeeps(Value(), MarkExpiry(chat, owner, expires));
      }
      if chat in sessions && sessions[chat].owner == owner {
        sessions := sessions[chat := sessions[chat].(expires := Some(expires))];
      }
    }

    /** A chat with work keeps its session, so that its cancel can still be asked for; any other loses it. */
    method FinishSession(chat: ChatId, owner: Owner)
      modifies this`sessions
      ensures Value() == After(old(Value()), Finish(chat, owner))
      ensures chat in old(sessions) ==> (chat in sessions <==> Pending(trackers, chat, owner))
      ensures forall c, o | c != chat :: IsStored(sessions, c, o) <==> IsStored(old(sessions), c, o)
      ensures Inv(old(Value())) ==> Inv(Value())
    {
      if Inv(Value()) {
        StepKeeps(Value(), Finish(chat, owner));
      }
      if !Pending(trackers, chat, owner) {
        sessions := sessions - {chat};
      }
    }

    /** Never another orchestrator's session, even if the chat has got a new one meanwhile. */
    method RemoveSessionIfSame(chat: ChatId, owner: Owner)
      modifies this`sessions
      ensures Value() == After(old(Value()), RemoveIfSame(chat, owner))
      ensures !IsStored(sessions, chat, owner)
      ensures forall c, o | !(c == chat && o == owner) :: IsStored(sessions, c, o) <==> IsStored(old(sessions), c, o)
      ensures Inv(old(Value())) ==> Inv(Value())
    {
      if Inv(Value()) {
        StepKeeps(Value(), RemoveIfSame(chat, owner));
      }
      if chat in sessions && sessions[chat].owner == owner {
        sessions := sessions - {chat};
      }
    }
  }
}
