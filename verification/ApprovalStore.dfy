/**
 The in-process approval store: an approval is handed out by one claim at most, and never once its
 deadline or the store's time to live has passed.
 */
module ApprovalStore {
  import opened Base

  type Payload(==, !new)

  datatype Approval = Approval(chat: string, call: string, payload: Payload, deadline: int)
  datatype Key = Key(chat: string, call: string)
  datatype Entry = Entry(approval: Approval, expires: nat)
  datatype StoreError = Expired | AlreadyExists

  /** One reading of the monotonic clock and of UTC time. */
  datatype Clock = Clock(instant: nat, utc: int)

  type Entries = map<Key, Entry>

  function KeyOf(a: Approval): Key { Key(a.chat, a.call) }

  predicate Live(e: Entry, now: Clock) { e.expires > now.instant && e.approval.deadline > now.utc }

  function Pruned(entries: Entries, now: Clock): Entries {
    map k | k in entries && Live(entries[k], now) :: entries[k]
  }

  /** The outcome of a save: refused when expired, when the key is taken, or when the expiry overflows. */
  function SaveResult(entries: Entries, a: Approval, ttl: nat, limit: nat, now: Clock): Result<(), StoreError> {
    if a.deadline <= now.utc || ttl == 0 then Err(Expired)
    else if KeyOf(a) in Pruned(entries, now) then Err(AlreadyExists)
    else if now.instant + ttl > limit then Err(Expired)
    else Ok(())
  }

  function AfterSave(entries: Entries, a: Approval, ttl: nat, limit: nat, now: Clock): Entries {
    if a.deadline <= now.utc || ttl == 0 then entries
    else if SaveResult(entries, a, ttl, limit, now).Ok? then
      Pruned(entries, now)[KeyOf(a) := Entry(a, now.instant + ttl)]
    else Pruned(entries, now)
  }

  function ClaimResult(entries: Entries, k: Key, now: Clock): Option<Approval> {
    if k in entries && Live(entries[k], now) then Some(entries[k].approval) else None
  }

  class MemoryPendingApprovalStore {
    const ttl: nat
    /** The latest instant the platform can represent. */
    const limit: nat
    var entries: Entries

    constructor (ttl: nat, limit: nat)
      ensures entries == map[] && this.ttl == ttl && this.limit == limit
    {
      this.ttl, this.limit, entries := ttl, limit, map[];
    }

    method Save(a: Approval, now: Clock) returns (r: Result<(), StoreError>)
      modifies this
      ensures r == SaveResult(old(entries), a, ttl, limit, now)
      ensures entries == AfterSave(old(entries), a, ttl, limit, now)
    {
      if a.deadline <= now.utc || ttl == 0 {
        return Err(Expired);
      }
      PruneExpired(now);
      var key := Key(a.chat, a.call);
      if key in entries {
        return Err(AlreadyExists);
      }
      if now.instant + ttl > limit {
        return Err(Expired);
      }
      entries := entries[key := Entry(a, now.instant + ttl)];
      return Ok(());
    }

    method Claim(chat: string, call: string, now: Clock) returns (r: Option<Approval>)
      modifies this
      ensures r == ClaimResult(old(entries), Key(chat, call), now)
      ensures entries == old(entries) - {Key(chat, call)}
    {
      var key := Key(chat, call);
      if key !in entries {
        return None;
      }
      var entry := entries[key];
      entries := entries - {key};
      if entry.expires <= now.instant || entry.approval.deadline <= now.utc {
        return None;
      }
      return Some(entry.approval);
    }

    method PruneExpired(now: Clock)
      modifies this
      ensures entries == Pruned(old(entries), now)
    {
      var keys, kept: Entries := entries.Keys, map[];
      while keys != {}
        invariant keys <= entries.Keys && entries == old(entries)
        invariant kept == map k | k in entries && k !in keys && Live(entries[k], now) :: entries[k]
        decreases keys
      {
        var k :| k in keys;
        if entries[k].expires > now.instant && entries[k].approval.deadline > now.utc {
          kept := kept[k := entries[k]];
        }
        keys := keys - {k};
      }
      entries := kept;
    }
  }

  // ----- Any sequence of saves and claims -----

  datatype Op = Save(approval: Approval, now: Clock) | Claim(key: Key, now: Clock)

  function After(entries: Entries, op: Op, ttl: nat, limit: nat): Entries {
    match op
    case Save(a, now) => AfterSave(entries, a, ttl, limit, now)
    case Claim(k, now) => entries - {k}
  }

  predicate IsRun(states: seq<Entries>, ops: seq<Op>, ttl: nat, limit: nat) {
    && |states| == |ops| + 1 && states[0] == map[]
    && forall i | 0 <= i < |ops| :: states[i + 1] == After(states[i], ops[i], ttl, limit)
  }

  /** Operation s saved this entry, and nobody has claimed its key from then until k. */
  predicate SavedAt(states: seq<Entries>, ops: seq<Op>, ttl: nat, limit: nat, s: nat, k: nat, e: Entry) {
    && s < k <= |ops| < |states| && ops[s].Save? && ops[s].approval == e.approval
    && SaveResult(states[s], e.approval, ttl, limit, ops[s].now).Ok?
    && e.expires == ops[s].now.instant + ttl
    && forall i | s < i < k :: !(ops[i].Claim? && ops[i].key == KeyOf(e.approval))
  }

  lemma {:induction false} EntryWasSaved(
    states: seq<Entries>, ops: seq<Op>, ttl: nat, limit: nat, k: nat, key: Key) returns (s: nat)
    requires IsRun(states, ops, ttl, limit) && k < |states| && key in states[k]
    ensures KeyOf(states[k][key].approval) == key
    ensures SavedAt(states, ops, ttl, limit, s, k, states[k][key])
  {
    var op := ops[k - 1];
    if op.Save? && SaveResult(states[k - 1], op.approval, ttl, limit, op.now).Ok? && KeyOf(op.approval) == key {
      s := k - 1;
    } else {
      s := EntryWasSaved(states, ops, ttl, limit, k - 1, key);
    }
  }

  /**
   A claim that hands out an approval has a save of its own: the same approval, saved successfully, not
   claimed in between, and neither its deadline nor its time to live has passed.
   */
  lemma ClaimHasItsSave(states: seq<Entries>, ops: seq<Op>, ttl: nat, limit: nat, j: nat) returns (s: nat)
    requires IsRun(states, ops, ttl, limit) && j < |ops|
    requires ops[j].Claim? && ClaimResult(states[j], ops[j].key, ops[j].now).Some?
    ensures var a := ClaimResult(states[j], ops[j].key, ops[j].now).value;
      && s < j && SavedAt(states, ops, ttl, limit, s, j, Entry(a, ops[s].now.instant + ttl)) && KeyOf(a) == ops[j].key
      && ops[j].now.utc < a.deadline && ops[j].now.instant < ops[s].now.instant + ttl
  {
    s := EntryWasSaved(states, ops, ttl, limit, j, ops[j].key);
  }

  /** No saved approval is handed out twice: two such claims of a key have different saves, in order. */
  lemma ClaimedAtMostOnce(states: seq<Entries>, ops: seq<Op>, ttl: nat, limit: nat, i: nat, j: nat)
    returns (s: nat, t: nat)
    requires IsRun(states, ops, ttl, limit) && i < j < |ops|
    requires ops[i].Claim? && ClaimResult(states[i], ops[i].key, ops[i].now).Some?
    requires ops[j].Claim? && ClaimResult(states[j], ops[j].key, ops[j].now).Some? && ops[i].key == ops[j].key
    ensures s < i < t < j
    ensures SavedAt(states, ops, ttl, limit, s, i, states[i][ops[i].key])
    ensures SavedAt(states, ops, ttl, limit, t, j, states[j][ops[j].key])
  {
    s := EntryWasSaved(states, ops, ttl, limit, i, ops[i].key);
    t := EntryWasSaved(states, ops, ttl, limit, j, ops[j].key);
    assert i != t;
  }

  /** Within its time, an approval that nobody has claimed is there for the next claim. */
  lemma {:induction false} UnclaimedIsKept(
    states: seq<Entries>, ops: seq<Op>, ttl: nat, limit: nat, s: nat, k: nat, now: Clock)
    requires IsRun(states, ops, ttl, limit) && s < k < |states|
    requires ops[s].Save? && SaveResult(states[s], ops[s].approval, ttl, limit, ops[s].now).Ok?
    requires forall i | s < i < k :: !(ops[i].Claim? && ops[i].key == KeyOf(ops[s].approval))
    requires forall i | s < i < k :: ops[i].now.instant <= now.instant && ops[i].now.utc <= now.utc
    requires now.instant < ops[s].now.instant + ttl && now.utc < ops[s].approval.deadline
    ensures ClaimResult(states[k], KeyOf(ops[s].approval), now) == Some(ops[s].approval)
    ensures KeyOf(ops[s].approval) in states[k]
    ensures states[k][KeyOf(ops[s].approval)] == Entry(ops[s].approval, ops[s].now.instant + ttl)
  {
    if k > s + 1 {
      UnclaimedIsKept(states, ops, ttl, limit, s, k - 1, now);
    }
  }

  /** At operation j an approval saved under this key is still waiting: nobody has claimed it, and it is in time. */
  ghost predicate StillWaiting(
    states: seq<Entries>, ops: seq<Op>, ttl: nat, limit: nat, j: nat, key: Key, now: Clock)
    requires IsRun(states, ops, ttl, limit) && j < |states|
  {
    exists s | 0 <= s < j ::
      && ops[s].Save? && KeyOf(ops[s].approval) == key
      && SaveResult(states[s], ops[s].approval, ttl, limit, ops[s].now).Ok?
      && (forall i | s < i < j :: !(ops[i].Claim? && ops[i].key == key))
      && now.instant < ops[s].now.instant + ttl && now.utc < ops[s].approval.deadline
  }

  /**
   A save is accepted exactly when the approval is not expired, can expire later, and no other approval is
   still waiting under its key; a claim hands one out exactly when one is.
   */
  lemma SaveIsAccepted(
    states: seq<Entries>, ops: seq<Op>, ttl: nat, limit: nat, j: nat, a: Approval, now: Clock)
    requires IsRun(states, ops, ttl, limit) && j < |states|
    requires forall i | 0 <= i < j :: ops[i].now.instant <= now.instant && ops[i].now.utc <= now.utc
    ensures SaveResult(states[j], a, ttl, limit, now).Ok? <==>
      && now.utc < a.deadline && ttl > 0 && now.instant + ttl <= limit
      && !StillWaiting(states, ops, ttl, limit, j, KeyOf(a), now)
    ensures ClaimResult(states[j], KeyOf(a), now).Some? <==>
      StillWaiting(states, ops, ttl, limit, j, KeyOf(a), now)
  {
    var key := KeyOf(a);
    if key in states[j] && Live(states[j][key], now) {
      var s := EntryWasSaved(states, ops, ttl, limit, j, key);
      assert ops[s].Save? && KeyOf(ops[s].approval) == key;
    }
    if StillWaiting(states, ops, ttl, limit, j, key, now) {
      var s :| 0 <= s < j && ops[s].Save? && KeyOf(ops[s].approval) == key
        && SaveResult(states[s], ops[s].approval, ttl, limit, ops[s].now).Ok?
        && (forall i | s < i < j :: !(ops[i].Claim? && ops[i].key == key))
        && now.instant < ops[s].now.instant + ttl && now.utc < ops[s].approval.deadline;
      UnclaimedIsKept(states, ops, ttl, limit, s, j, now);
    }
  }
}
