/**
 The persistent tool registry. Its entries and revision change only under a lock, together with the
 registry file; registering, updating, taking a snapshot and revalidating wait for a schema lookup
 outside the lock and check the revision afterwards.
 */
module ToolRegistry {
  import opened Base

  type Name(==, 0, !new)
  type Text(==, 0, !new)
  type Schema(==, 0, !new)
  type Bytes = seq<bv8>

  datatype Registration = Registration(
    name: Name, description: Text, worker: int, using: Text, requiresApproval: bool)

  type Entries = map<Name, Registration>

  /** What a schema lookup yields. */
  datatype Resolved = Resolved(schema: Schema, revision: Text)
  datatype ToolSnapshot = ToolSnapshot(registration: Registration, resolved: Resolved)

  datatype RegistryError =
    | DuplicateName | ToolNotFound | InvalidRegistration | ConcurrentModification | RevisionExhausted
    | StaleSnapshot | RegistryTooLarge | UnsupportedFileVersion | Unreadable | Io | Unresolved

  const MAX_REGISTRY_FILE_BYTES: nat := 1024 * 1024
  const REVISION_MAX: nat := 0xFFFF_FFFF_FFFF_FFFF
  const REGISTRY_FILE_VERSION: nat := 1

  datatype Persisted = Persisted(version: nat, tools: seq<Registration>)

  /** The JSON codec, the registration check and the external schema lookup. */
  datatype Config = Config(
    encode: Entries -> Bytes, decode: Bytes -> Option<Persisted>, valid: Registration -> bool,
    resolve: (Registration, nat) -> Option<Resolved>)

  function ToMap(tools: seq<Registration>): Entries {
    if tools == [] then map[] else ToMap(tools[..|tools| - 1])[tools[|tools| - 1].name := tools[|tools| - 1]]
  }

  predicate OncePerName(tools: seq<Registration>) {
    forall i, j | 0 <= i < j < |tools| :: tools[i].name != tools[j].name
  }

  predicate Keyed(entries: Entries) { forall n | n in entries :: entries[n].name == n }

  /** Decoding undoes encoding: the current version and each entry once, in some order. */
  ghost predicate Lawful(c: Config) {
    forall e {:trigger (c.encode)(e)} :: Keyed(e) ==>
      var p := (c.decode)((c.encode)(e));
      p.Some? && p.value.version == REGISTRY_FILE_VERSION && OncePerName(p.value.tools) && ToMap(p.value.tools) == e
  }

  datatype State = State(entries: Entries, revision: nat, file: Option<Bytes>)

  /** The file holds the entries; a registry that was never written has no file. */
  predicate Agrees(c: Config, s: State) {
    match s.file
    case None => s.entries == map[]
    case Some(bytes) =>
      && |bytes| <= MAX_REGISTRY_FILE_BYTES
      && var p := (c.decode)(bytes);
         && p.Some? && p.value.version == REGISTRY_FILE_VERSION
         && OncePerName(p.value.tools) && ToMap(p.value.tools) == s.entries
  }

  predicate StateOk(c: Config, s: State) {
    && Agrees(c, s) && Keyed(s.entries) && s.revision <= REVISION_MAX
    && forall n | n in s.entries :: (c.valid)(s.entries[n])
  }

  // ----- Atomic steps and runs -----

  /** One section under the lock either changes nothing or installs entries and file with a new revision. */
  predicate Step(c: Config, s: State, s': State) {
    s' == s || (s'.revision == s.revision + 1 && StateOk(c, s'))
  }

  predicate IsRun(c: Config, trace: seq<State>) {
    && trace != [] && StateOk(c, trace[0])
    && forall i | 0 <= i < |trace| - 1 :: Step(c, trace[i], trace[i + 1])
  }

  lemma {:induction false} RunOk(c: Config, trace: seq<State>, k: nat)
    requires IsRun(c, trace) && k < |trace|
    ensures StateOk(c, trace[k])
  {
    if k > 0 {
      RunOk(c, trace, k - 1);
      assert Step(c, trace[k - 1], trace[k - 1 + 1]);
    }
  }

  lemma {:induction false} RevisionsGrow(c: Config, trace: seq<State>, i: nat, k: nat)
    requires IsRun(c, trace) && i <= k < |trace|
    ensures trace[i].revision <= trace[k].revision
    ensures trace[i].revision == trace[k].revision ==> trace[i] == trace[k]
  {
    if i < k {
      RevisionsGrow(c, trace, i, k - 1);
      assert Step(c, trace[k - 1], trace[k - 1 + 1]);
    }
  }

  /** No ABA: between two moments with equal revisions, nothing changed at any moment. */
  lemma NoAba(c: Config, trace: seq<State>, i: nat, k: nat)
    requires IsRun(c, trace) && i <= k < |trace| && trace[i].revision == trace[k].revision
    ensures forall j | i <= j <= k :: trace[j] == trace[i]
  {
    forall j | i <= j <= k ensures trace[j] == trace[i] {
      RevisionsGrow(c, trace, i, j);
      RevisionsGrow(c, trace, j, k);
    }
  }

  lemma RunsJoin(c: Config, trace: seq<State>, more: seq<State>)
    requires IsRun(c, trace) && IsRun(c, [trace[|trace| - 1]] + more)
    ensures IsRun(c, trace + more)
  {
    var joined, tail := trace + more, [trace[|trace| - 1]] + more;
    forall i | 0 <= i < |joined| - 1 ensures Step(c, joined[i], joined[i + 1]) {
      if i >= |trace| - 1 {
        var t := i - (|trace| - 1);
        assert joined[i] == tail[t] && joined[i + 1] == tail[t + 1];
        assert Step(c, tail[t], tail[t + 1]);
      } else {
        assert Step(c, trace[i], trace[i + 1]);
      }
    }
  }

  // ----- Reading the file -----

  /** What opening and reading the registry file gives. */
  datatype FileRead = Missing | Failed | Contents(bytes: Bytes)

  function Found(file: Option<Bytes>): FileRead { if file.Some? then Contents(file.value) else Missing }

  predicate Decodes(c: Config, bytes: Bytes) {
    && |bytes| <= MAX_REGISTRY_FILE_BYTES
    && (c.decode)(bytes).Some? && (c.decode)(bytes).value.version == REGISTRY_FILE_VERSION
  }

  method ReadRegistryFile(c: Config, file: FileRead) returns (r: Result<seq<Registration>, RegistryError>)
    ensures r.Ok? <==> file.Missing? || (file.Contents? && Decodes(c, file.bytes))
    ensures r.Ok? ==> r.value == if file.Missing? then [] else (c.decode)(file.bytes).value.tools
    ensures r == Err(Io) <==> file.Failed?
    ensures r == Err(RegistryTooLarge) <==> file.Contents? && |file.bytes| > MAX_REGISTRY_FILE_BYTES
  {
    if file.Missing? {
      return Ok([]);
    }
    if file.Failed? {
      return Err(Io);
    }
    if |file.bytes| > MAX_REGISTRY_FILE_BYTES {
      return Err(RegistryTooLarge);
    }
    var persisted := (c.decode)(file.bytes);
    if persisted.None? {
      return Err(Unreadable);
    }
    if persisted.value.version != REGISTRY_FILE_VERSION {
      return Err(UnsupportedFileVersion);
    }
    return Ok(persisted.value.tools);
  }

  predicate AllResolve(entries: Entries, lookup: Registration -> Option<Resolved>) {
    forall n | n in entries :: lookup(entries[n]).Some?
  }

  /** Look every loaded target up once. */
  method LookUpAll(entries: Entries, lookup: Registration -> Option<Resolved>) returns (ok: bool)
    ensures ok <==> AllResolve(entries, lookup)
  {
    var names := entries.Keys;
    while names != {}
      invariant names <= entries.Keys && forall n | n in entries.Keys - names :: lookup(entries[n]).Some?
      decreases names
    {
      var name :| name in names;
      if lookup(entries[name]).None? {
        return false;
      }
      names := names - {name};
    }
    return true;
  }

  /** What opening a file loads; `lookup` is what the schema lookups yield meanwhile. */
  method Load(c: Config, file: FileRead, lookup: Registration -> Option<Resolved>)
    returns (r: Result<Entries, RegistryError>)
    ensures r.Ok? ==> Keyed(r.value) && (forall n | n in r.value :: (c.valid)(r.value[n]))
    ensures r.Ok? ==> AllResolve(r.value, lookup)
    ensures r.Ok? ==> !file.Failed?
    ensures r.Ok? ==> Agrees(c, State(r.value, 0, if file.Missing? then None else Some(file.bytes)))
    ensures forall s | StateOk(c, s) && file == Found(s.file) ::
      r == if AllResolve(s.entries, lookup) then Ok(s.entries) else Err(Unresolved)
  {
    var read := ReadRegistryFile(c, file);
    if read.Err? {
      return Err(read.error);
    }
    var tools, entries: Entries, i := read.value, map[], 0;
    while i < |tools|
      invariant 0 <= i <= |tools|
      invariant entries == ToMap(tools[..i]) && Keyed(entries) && OncePerName(tools[..i])
      invariant forall n | n in entries :: (c.valid)(entries[n])
      invariant forall n :: n in entries <==> exists j | 0 <= j < i :: tools[j].name == n
    {
      assert tools[..i + 1][..i] == tools[..i];
      if !(c.valid)(tools[i]) {
        MapHolds(tools, i);
        return Err(InvalidRegistration);
      }
      if tools[i].name in entries {
        return Err(DuplicateName);
      }
      entries, i := entries[tools[i].name := tools[i]], i + 1;
    }
    assert tools[..i] == tools;
    var resolved := LookUpAll(entries, lookup);
    return if resolved then Ok(entries) else Err(Unresolved);
  }

  /** With distinct names every tool of the list is the entry under its name. */
  lemma {:induction false} MapHolds(tools: seq<Registration>, i: nat)
    requires i < |tools|
    ensures OncePerName(tools) ==> tools[i].name in ToMap(tools) && ToMap(tools)[tools[i].name] == tools[i]
    decreases |tools|
  {
    var before, last := tools[..|tools| - 1], tools[|tools| - 1];
    if i < |tools| - 1 && OncePerName(tools) {
      MapHolds(before, i);
      assert before[i] == tools[i];
    }
  }

  // ----- The registry -----

  function Installed(c: Config, s: State, entries: Entries): State {
    State(entries, s.revision + 1, Some((c.encode)(entries)))
  }

  predicate SameDispatch(a: Registration, b: Registration) {
    a.worker == b.worker && a.using == b.using && a.requiresApproval == b.requiresApproval
  }

  class Registry {
    const config: Config
    /** The sections other callers run while this one waits, one state after each. */
    const others: (State, nat) -> seq<State>
    var state: State
    var clock: nat
    /** Every state so far, the current one last. */
    ghost var trace: seq<State>

    ghost predicate Valid()
      reads this
    {
      && Lawful(config)
      && IsRun(config, trace) && trace[|trace| - 1] == state
      && forall s, n {:trigger others(s, n)} :: StateOk(config, s) ==> IsRun(config, [s] + others(s, n))
    }

    /** From the entry of a call on, the registry has been what it is now. */
    twostate predicate UnchangedSinceEntry()
      reads this
    {
      old(trace) != [] && |old(trace)| <= |trace| && forall i | |old(trace)| - 1 <= i < |trace| :: trace[i] == state
    }

    /** Open a registry over what a file holds; every target is looked up once. */
    constructor Open(config: Config, others: (State, nat) -> seq<State>, file: Option<Bytes>, entries: Entries)
      requires Lawful(config) && StateOk(config, State(entries, 0, file))
      requires forall s, n {:trigger others(s, n)} :: StateOk(config, s) ==> IsRun(config, [s] + others(s, n))
      ensures Valid() && state == State(entries, 0, file)
    {
      this.config, this.others, state, clock := config, others, State(entries, 0, file), 0;
      trace := [State(entries, 0, file)];
    }

    method Await()
      requires Valid()
      modifies this
      ensures Valid() && old(trace) <= trace && clock == old(clock) + 1
    {
      RunOk(config, trace, |trace| - 1);
      var more := others(state, clock);
      RunsJoin(config, trace, more);
      trace := trace + more;
      if more != [] {
        state := more[|more| - 1];
      }
      clock := clock + 1;
    }

    /** Look a target up; others may act meanwhile. */
    method Resolve(registration: Registration) returns (r: Option<Resolved>)
      requires Valid()
      modifies this
      ensures Valid() && old(trace) <= trace && clock == old(clock) + 1
      ensures r == (config.resolve)(registration, old(clock))
    {
      r := (config.resolve)(registration, clock);
      Await();
    }

    /**
     Write the file by replacing it, then install the entries. On failure neither changes; `fails` says
     that the file system refuses.
     */
    method Install(entries: Entries, fails: bool) returns (r: Result<(), RegistryError>)
      requires Valid() && Keyed(entries) && forall n | n in entries :: (config.valid)(entries[n])
      modifies this
      ensures Valid()
      ensures r.Ok? ==> state == Installed(config, old(state), entries) && trace == old(trace) + [state]
      ensures r.Err? ==> state == old(state) && trace == old(trace)
      ensures r.Err? ==> r.error in {RevisionExhausted, RegistryTooLarge, Io}
      ensures r == Err(Io) ==> fails
      ensures clock == old(clock)
      ensures old(state.revision) == REVISION_MAX <==> r == Err(RevisionExhausted)
      ensures old(state.revision) < REVISION_MAX && |(config.encode)(entries)| > MAX_REGISTRY_FILE_BYTES <==>
        r == Err(RegistryTooLarge)
    {
      RunOk(config, trace, |trace| - 1);
      if state.revision == REVISION_MAX {
        return Err(RevisionExhausted);
      }
      var contents := (config.encode)(entries);
      if |contents| > MAX_REGISTRY_FILE_BYTES {
        return Err(RegistryTooLarge);
      }
      if fails {
        return Err(Io);
      }
      state := State(entries, state.revision + 1, Some(contents));
      assert IsRun(config, [trace[|trace| - 1]] + [state]);
      RunsJoin(config, trace, [state]);
      trace := trace + [state];
      return Ok(());
    }

    /** A registration that commits adds a name that was free at that very moment. */
    method Register(registration: Registration, fails: bool) returns (r: Result<(), RegistryError>)
      requires Valid()
      modifies this
      ensures Valid() && old(trace) <= trace
      ensures r.Ok? ==> |trace| > |old(trace)| && Added(config, trace[|trace| - 2], state, registration)
      ensures r == Err(InvalidRegistration) <==> !(config.valid)(registration)
      ensures r == Err(DuplicateName) <==> (config.valid)(registration) && registration.name in old(state.entries)
      ensures r == Err(Unresolved) <==>
        && (config.valid)(registration) && registration.name !in old(state.entries)
        && (config.resolve)(registration, old(clock)).None?
      ensures r == Err(ConcurrentModification) ==> state.revision != old(state.revision)
      ensures r.Err? ==> r.error in {InvalidRegistration, DuplicateName, Unresolved, ConcurrentModification,
                                     RevisionExhausted, RegistryTooLarge, Io}
      ensures r == Err(Io) ==> fails
    {
      if !(config.valid)(registration) {
        return Err(InvalidRegistration);
      }
      if registration.name in state.entries {
        return Err(DuplicateName);
      }
      var expected := state.revision;
      var resolved := Resolve(registration);
      if resolved.None? {
        return Err(Unresolved);
      }
      if state.revision != expected {
        return Err(ConcurrentModification);
      }
      NoAba(config, trace, |old(trace)| - 1, |trace| - 1);
      RunOk(config, trace, |trace| - 1);
      r := Install(state.entries[registration.name := registration], fails);
    }

    /** An update that commits replaces the entry the caller saw, unchanged until that very moment. */
    method Update(registration: Registration, fails: bool) returns (r: Result<(), RegistryError>)
      requires Valid()
      modifies this
      ensures Valid() && old(trace) <= trace
      ensures r.Ok? ==> |trace| > |old(trace)| && Replaced(config, trace[|trace| - 2], state, registration)
      ensures r.Ok? ==> trace[|trace| - 2] == old(state)
      ensures r == Err(InvalidRegistration) <==> !(config.valid)(registration)
      ensures r == Err(ToolNotFound) <==> (config.valid)(registration) && registration.name !in old(state.entries)
      ensures r == Err(Unresolved) <==>
        && (config.valid)(registration) && registration.name in old(state.entries)
        && (config.resolve)(registration, old(clock)).None?
      ensures r == Err(ConcurrentModification) ==> state.revision != old(state.revision)
      ensures r.Err? ==> r.error in {InvalidRegistration, ToolNotFound, Unresolved, ConcurrentModification,
                                     RevisionExhausted, RegistryTooLarge, Io}
      ensures r == Err(Io) ==> fails
    {
      if !(config.valid)(registration) {
        return Err(InvalidRegistration);
      }
      if registration.name !in state.entries {
        return Err(ToolNotFound);
      }
      var expected, current := state.revision, state.entries[registration.name];
      var resolved := Resolve(registration);
      if resolved.None? {
        return Err(Unresolved);
      }
      if state.revision == expected {
        NoAba(config, trace, |old(trace)| - 1, |trace| - 1);
      }
      if state.revision != expected || registration.name !in state.entries
        || state.entries[registration.name] != current
      {
        return Err(ConcurrentModification);
      }
      RunOk(config, trace, |trace| - 1);
      r := Install(state.entries[registration.name := registration], fails);
    }

    method Remove(name: Name, fails: bool) returns (r: Result<(), RegistryError>)
      requires Valid()
      modifies this
      ensures Valid() && old(trace) <= trace
      ensures r.Ok? ==> name in old(state.entries)
      ensures r.Ok? ==> state == Installed(config, old(state), old(state.entries) - {name})
      ensures r.Err? ==> state == old(state)
      ensures r == Err(ToolNotFound) <==> name !in old(state.entries)
      ensures r.Err? ==> r.error in {ToolNotFound, RevisionExhausted, RegistryTooLarge, Io}
      ensures r == Err(Io) ==> fails
    {
      if name !in state.entries {
        return Err(ToolNotFound);
      }
      RunOk(config, trace, |trace| - 1);
      r := Install(state.entries - {name}, fails);
    }

    /** A snapshot is the whole registry as it was at one moment, and in fact during the whole call. */
    method SnapshotForRequest() returns (r: Result<map<Name, ToolSnapshot>, RegistryError>)
      requires Valid()
      modifies this
      ensures Valid() && old(trace) <= trace
      ensures r.Ok? ==> Projects(r.value, old(state.entries)) && UnchangedSinceEntry()
      ensures r.Ok? ==> forall n | n in r.value :: LookedUp(config, r.value[n], old(clock), clock)
      ensures r == Err(ConcurrentModification) ==> state.revision != old(state.revision)
      ensures r == Err(Unresolved) ==>
        exists n, t | n in old(state.entries) && old(clock) <= t < clock ::
          (config.resolve)(old(state.entries)[n], t).None?
      ensures r.Err? ==> r.error == ConcurrentModification || r.error == Unresolved
    {
      var expected, entries := state.revision, state.entries;
      var names, tools: map<Name, ToolSnapshot> := entries.Keys, map[];
      while names != {}
        invariant Valid() && old(trace) <= trace
        invariant names <= entries.Keys && tools.Keys == entries.Keys - names
        invariant forall n | n in tools :: tools[n].registration == entries[n]
        invariant clock >= old(clock)
        invariant forall n | n in tools :: LookedUp(config, tools[n], old(clock), clock)
        decreases names
      {
        var name :| name in names;
        ghost var now := clock;
        var resolved := Resolve(entries[name]);
        assert resolved == (config.resolve)(entries[name], now) && old(clock) <= now < clock;
        if resolved.None? {
          return Err(Unresolved);
        }
        tools, names := tools[name := ToolSnapshot(entries[name], resolved.value)], names - {name};
      }
      if state.revision != expected {
        return Err(ConcurrentModification);
      }
      NoAba(config, trace, |old(trace)| - 1, |trace| - 1);
      return Ok(tools);
    }

    /** A revalidated target has been registered, unchanged, during the whole call, and is the one offered. */
    method RevalidateForDispatch(snapshot: map<Name, ToolSnapshot>, name: Name)
      returns (r: Result<ToolSnapshot, RegistryError>)
      requires Valid()
      modifies this
      ensures Valid() && old(trace) <= trace
      ensures r.Ok? ==> name in snapshot && name in state.entries && UnchangedSinceEntry()
      ensures r.Ok? ==>
        && r.value.registration == state.entries[name]
        && IsDispatch(state.entries[name], snapshot[name].registration)
        && r.value.resolved == snapshot[name].resolved
        && (config.resolve)(state.entries[name], old(clock)) == Some(r.value.resolved)
      ensures r == Err(Unresolved) <==>
        && name in snapshot && name in old(state.entries)
        && IsDispatch(old(state.entries)[name], snapshot[name].registration)
        && (config.resolve)(old(state.entries)[name], old(clock)).None?
      ensures r == Err(StaleSnapshot) ==>
        || name !in snapshot || name !in old(state.entries)
        || !IsDispatch(old(state.entries)[name], snapshot[name].registration)
        || state.revision != old(state.revision)
        || (config.resolve)(old(state.entries)[name], old(clock)) != Some(snapshot[name].resolved)
      ensures r.Err? ==> r.error == StaleSnapshot || r.error == Unresolved
    {
      if name !in snapshot {
        return Err(StaleSnapshot);
      }
      var offered := snapshot[name];
      if name !in state.entries || !SameDispatch(state.entries[name], offered.registration) {
        return Err(StaleSnapshot);
      }
      var expected, current := state.revision, state.entries[name];
      var resolved := Resolve(current);
      if resolved.None? {
        return Err(Unresolved);
      }
      if state.revision == expected {
        NoAba(config, trace, |old(trace)| - 1, |trace| - 1);
      }
      if state.revision != expected || name !in state.entries || state.entries[name] != current {
        return Err(StaleSnapshot);
      }
      if resolved.value != offered.resolved {
        return Err(StaleSnapshot);
      }
      return Ok(ToolSnapshot(current, resolved.value));
    }
  }

  /** The worker, the method and the approval flag are those of the snapshot. */
  predicate IsDispatch(now: Registration, offered: Registration) {
    now.worker == offered.worker && now.using == offered.using && now.requiresApproval == offered.requiresApproval
  }

  /** The schema and revision of the snapshot were looked up for that very registration, between these moments. */
  predicate LookedUp(c: Config, tool: ToolSnapshot, from: nat, to: nat) {
    exists t | from <= t < to :: (c.resolve)(tool.registration, t) == Some(tool.resolved)
  }

  predicate Added(c: Config, before: State, after: State, registration: Registration) {
    registration.name !in before.entries
    && after == Installed(c, before, before.entries[registration.name := registration])
  }

  predicate Replaced(c: Config, before: State, after: State, registration: Registration) {
    registration.name in before.entries
    && after == Installed(c, before, before.entries[registration.name := registration])
  }

  predicate Projects(tools: map<Name, ToolSnapshot>, entries: Entries) {
    tools.Keys == entries.Keys && forall n | n in tools :: tools[n].registration == entries[n]
  }
}
