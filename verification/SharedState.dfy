/**
 What concurrent chat executions share: the approval store, the capabilities issued so far, what was
 offered to the model and what was started. An execution reads and changes it in atomic steps; between
 two of its steps the other executions take theirs.
 */
module SharedState {
  import opened Base
  import opened Transcript

  /** One call of the server that starts or resumes a chat. */
  type Execution(==, !new)
  type Capability(==, 0, !new)
  type Schema(==, 0, !new)
  type Revision(==, 0, !new)
  type MethodName(==, 0, !new)

  datatype Tool = Tool(
    name: ToolName, description: Value, worker: int, methodName: MethodName, requiresApproval: bool,
    revision: Revision, schema: Schema)

  predicate SameTarget(offered: Tool, current: Tool) {
    && offered.name == current.name
    && offered.worker == current.worker
    && offered.methodName == current.methodName
    && offered.requiresApproval == current.requiresApproval
    && offered.revision == current.revision
    && offered.schema == current.schema
  }

  /** The tools offered to the model in one turn of a chat. */
  datatype Offer = Offer(chat: ChatId, turn: nat, tools: seq<Tool>)

  datatype Continuation = Continuation(
    history: seq<Message>, turns: nat, outputBytes: nat, offered: seq<Tool>, remaining: seq<ToolCall>)

  datatype Pending = Pending(
    chat: ChatId, call: ToolCall, worker: int, methodName: MethodName, continuation: Continuation)

  /** The identity of an issued approval; its text form is injective. */
  datatype Key = Key(chat: ChatId, call: CallId, capability: Capability)

  /** A claimed approval belongs to the execution that claimed it, with what its client decided. */
  datatype Stage = Waiting | Claimed(actor: Execution, approve: bool) | Used(actor: Execution)

  /** An approval through its life; `base` is where the generated part of the history begins. */
  datatype Token = Token(pending: Pending, base: nat, stage: Stage)

  /** One call of the Worker executor: by whom, for which offer, and with the approval it needed. */
  datatype Start = Start(actor: Execution, offer: Offer, tool: Tool, args: Value, approval: Option<Key>)

  type Issued = map<Capability, Execution>

  datatype Shared = Shared(
    issued: Issued, approvals: map<Key, Pending>, tokens: map<Key, Token>, offers: set<Offer>,
    starts: seq<Start>)

  // ----- Limits -----

  const USIZE_MAX: nat := 0xFFFF_FFFF_FFFF_FFFF

  /** Limits, serialized sizes and the validators that are not modelled further. */
  datatype Config = Config(
    maxTurns: nat, maxBytes: nat, resultBytes: ToolResult -> nat, responseBytes: (Value, seq<ToolCall>) -> nat,
    accepts: (Value, Schema) -> bool, acceptsCall: ToolCall -> bool, reserved: ToolName -> bool,
    textOf: Value -> Option<string>)

  function SaturatingAdd(a: nat, b: nat): nat { Cap(a + b) }

  function Cap(n: nat): nat { if n > USIZE_MAX then USIZE_MAX else n }

  function MessageBytes(c: Config, m: Message): nat {
    match m
    case Request(_) => 0
    case Response(content, calls) => (c.responseBytes)(content, calls)
    case Answer(result) => (c.resultBytes)(result)
  }

  /** The serialized size of everything generated. */
  function Output(c: Config, generated: seq<Message>): nat {
    if generated == [] then 0
    else Output(c, generated[..|generated| - 1]) + MessageBytes(c, generated[|generated| - 1])
  }

  /** The counters of a continuation are those of its generated history, and within the limits. */
  predicate Counted(c: Config, st: Continuation, base: nat) {
    && base <= |st.history|
    && st.turns == Responses(st.history[base..]) <= c.maxTurns
    && st.outputBytes == Cap(Output(c, st.history[base..])) <= c.maxBytes
  }

  predicate DistinctCalls(calls: seq<ToolCall>) {
    forall i, j | 0 <= i < j < |calls| :: calls[i].id != calls[j].id
  }

  /** A list of calls the server is willing to answer. */
  predicate ValidList(c: Config, calls: seq<ToolCall>) {
    calls != [] && DistinctCalls(calls) && forall i | 0 <= i < |calls| :: (c.acceptsCall)(calls[i])
  }

  /** Every response asks for something, and passed the check of its calls. */
  predicate Sound(c: Config, generated: seq<Message>) {
    forall i | 0 <= i < |generated| && generated[i].Response? :: ValidList(c, generated[i].calls)
  }

  // ----- Invariant -----

  function Find(tools: seq<Tool>, name: ToolName): (r: Option<Tool>)
    ensures r.Some? ==> r.value in tools && r.value.name == name
    ensures r.None? ==> forall t | t in tools :: t.name != name
  {
    if tools == [] then None
    else if tools[0].name == name then Some(tools[0])
    else Find(tools[1..], name)
  }

  ghost predicate OfferedAs(tools: seq<Tool>, tool: Tool) {
    exists offered :: offered in tools && SameTarget(offered, tool)
  }

  predicate TokenOk(c: Config, k: Key, p: Pending, base: nat, offers: set<Offer>) {
    var st := p.continuation;
    && k.chat == p.chat && k.call == p.call.id
    && Counted(c, st, base) && st.turns > 0 && Sound(c, st.history[base..])
    && Owed(st.history[base..]) == Some([p.call] + st.remaining)
    && Offer(k.chat, st.turns - 1, st.offered) in offers
    && NeedsApproval(st.offered, p.call.name)
    && p.worker == Find(st.offered, p.call.name).value.worker
    && p.methodName == Find(st.offered, p.call.name).value.methodName
  }

  predicate NeedsApproval(tools: seq<Tool>, name: ToolName) {
    Find(tools, name).Some? && Find(tools, name).value.requiresApproval
  }

  predicate DistinctNames(tools: seq<Tool>) {
    forall i, j | 0 <= i < j < |tools| :: tools[i].name != tools[j].name
  }

  /** Tools that may be offered: under different names, none of them a built-in one's. */
  predicate MayOffer(c: Config, tools: seq<Tool>) {
    DistinctNames(tools) && forall i | 0 <= i < |tools| :: !(c.reserved)(tools[i].name)
  }

  predicate OffersOk(c: Config, offers: set<Offer>) {
    forall offer | offer in offers :: MayOffer(c, offer.tools)
  }

  predicate TokensOk(c: Config, tokens: map<Key, Token>, issued: Issued, offers: set<Offer>) {
    && (forall k | k in tokens :: k.capability in issued)
    && forall k {:trigger TokenOk(c, k, tokens[k].pending, tokens[k].base, offers)} | k in tokens ::
         TokenOk(c, k, tokens[k].pending, tokens[k].base, offers)
  }

  /** The store holds nothing but approvals that no resume has claimed. */
  predicate StoreOk(approvals: map<Key, Pending>, tokens: map<Key, Token>) {
    forall k | k in approvals :: k in tokens && tokens[k].stage == Waiting && tokens[k].pending == approvals[k]
  }

  /** The start is what was stored: the call and its arguments, the worker and method, and the turn's offer. */
  predicate Carries(p: Pending, k: Key, start: Start) {
    && p.call == ToolCall(k.call, start.tool.name, start.args)
    && p.worker == start.tool.worker && p.methodName == start.tool.methodName
    && start.offer.chat == k.chat && p.continuation.turns == start.offer.turn + 1
    && p.continuation.offered == start.offer.tools
  }

  /**
   A start is for the target offered in its turn, with accepted arguments. One that needs approval was
   made by the execution that claimed and used up an approval for that call, with the arguments stored
   there; no other start has an approval.
   */
  ghost predicate StartOk(c: Config, start: Start, tokens: map<Key, Token>, offers: set<Offer>) {
    && start.offer in offers && OfferedAs(start.offer.tools, start.tool)
    && (c.accepts)(start.args, start.tool.schema)
    && (start.approval.Some? <==> start.tool.requiresApproval)
    && (start.approval.Some? ==>
          var k := start.approval.value;
          k in tokens && tokens[k].stage == Used(start.actor) && Carries(tokens[k].pending, k, start))
  }

  ghost predicate StartsOk(c: Config, starts: seq<Start>, tokens: map<Key, Token>, offers: set<Offer>) {
    && (forall i | 0 <= i < |starts| :: StartOk(c, starts[i], tokens, offers))
    && forall i, j | 0 <= i < j < |starts| && starts[i].approval.Some? :: starts[i].approval != starts[j].approval
  }

  ghost predicate SharedOk(c: Config, s: Shared) {
    && TokensOk(c, s.tokens, s.issued, s.offers)
    && StoreOk(s.approvals, s.tokens)
    && StartsOk(c, s.starts, s.tokens, s.offers)
    && OffersOk(c, s.offers)
  }

  // ----- The atomic steps -----

  datatype Step =
    | Issue(actor: Execution, capability: Capability)
    | Propose(offer: Offer)
    | Save(actor: Execution, key: Key, pending: Pending, base: nat)
    | Claim(actor: Execution, key: Key, approve: bool)
    | Expire(key: Key)
    | Run(start: Start)

  /** Only the execution that claimed an approval for a client that approved may start its tool. */
  ghost predicate Enabled(c: Config, s: Shared, step: Step) {
    match step
    case Issue(actor, capability) => capability !in s.issued
    case Propose(offer) => MayOffer(c, offer.tools)
    case Save(actor, k, p, base) =>
      && k !in s.tokens && k.capability in s.issued && s.issued[k.capability] == actor
      && TokenOk(c, k, p, base, s.offers)
    case Claim(actor, k, approve) => k in s.approvals
    case Expire(k) => k in s.approvals
    case Run(start) =>
      && start.offer in s.offers && OfferedAs(start.offer.tools, start.tool)
      && (c.accepts)(start.args, start.tool.schema)
      && (start.approval.Some? <==> start.tool.requiresApproval)
      && (start.approval.Some? ==>
            var k := start.approval.value;
            && k in s.tokens && s.tokens[k].stage == Claimed(start.actor, true)
            && Carries(s.tokens[k].pending, k, start))
  }

  function Advance(tokens: map<Key, Token>, k: Key, stage: Stage): map<Key, Token> {
    if k in tokens then tokens[k := tokens[k].(stage := stage)] else tokens
  }

  function After(s: Shared, step: Step): Shared {
    match step
    case Issue(actor, capability) => s.(issued := s.issued[capability := actor])
    case Propose(offer) => s.(offers := s.offers + {offer})
    case Save(actor, k, p, base) =>
      s.(approvals := s.approvals[k := p], tokens := s.tokens[k := Token(p, base, Waiting)])
    case Claim(actor, k, approve) =>
      s.(approvals := s.approvals - {k}, tokens := Advance(s.tokens, k, Claimed(actor, approve)))
    case Expire(k) => s.(approvals := s.approvals - {k})
    case Run(start) =>
      s.(starts := s.starts + [start],
         tokens := if start.approval.None? then s.tokens
                   else Advance(s.tokens, start.approval.value, Used(start.actor)))
  }

  /** Who takes a step; offers and expiry concern nobody in particular. */
  predicate TakenBy(step: Step, e: Execution) {
    match step
    case Issue(actor, _) => actor == e
    case Save(actor, _, _, _) => actor == e
    case Claim(actor, _, _) => actor == e
    case Run(start) => start.actor == e
    case _ => false
  }

  // ----- What steps do to an execution -----

  predicate Forward(t: Token, t': Token) {
    && t'.pending == t.pending && t'.base == t.base
    && (t.stage.Used? ==> t'.stage == t.stage)
    && (t.stage.Claimed? ==> t'.stage == t.stage || (t.stage.approve && t'.stage == Used(t.stage.actor)))
  }

  /** Nothing is forgotten, and an approval only moves forward. */
  predicate Onward(s: Shared, s': Shared) {
    && (forall c | c in s.issued :: c in s'.issued && s'.issued[c] == s.issued[c])
    && s.offers <= s'.offers && s.starts <= s'.starts
    && forall k | k in s.tokens :: k in s'.tokens && Forward(s.tokens[k], s'.tokens[k])
  }

  /** Moreover the approvals claimed by `me` stay as they are. */
  predicate Later(s: Shared, s': Shared, me: Execution) {
    && Onward(s, s')
    && forall k | k in s.tokens && s.tokens[k].stage.Claimed? && s.tokens[k].stage.actor == me ::
         s'.tokens[k] == s.tokens[k]
  }

  /** Moreover no approval appears under a capability issued to `me`, and no start is made in its name. */
  predicate Apart(s: Shared, s': Shared, me: Execution) {
    && Later(s, s', me)
    && (forall k | k in s'.tokens && k.capability in s.issued && s.issued[k.capability] == me :: k in s.tokens)
    && forall i | |s.starts| <= i < |s'.starts| :: s'.starts[i].actor != me
  }

  lemma OnwardTransitive(s: Shared, t: Shared, u: Shared)
    requires Onward(s, t) && Onward(t, u)
    ensures Onward(s, u)
  {
  }

  lemma LaterTransitive(s: Shared, t: Shared, u: Shared, me: Execution)
    requires Later(s, t, me) && Later(t, u, me)
    ensures Later(s, u, me)
  {
    OnwardTransitive(s, t, u);
  }

  lemma ApartTransitive(s: Shared, t: Shared, u: Shared, me: Execution)
    requires Apart(s, t, me) && Apart(t, u, me)
    ensures Apart(s, u, me)
  {
    LaterTransitive(s, t, u, me);
  }

  lemma StepIsOnward(c: Config, s: Shared, step: Step)
    requires Enabled(c, s, step) && StoreOk(s.approvals, s.tokens)
    ensures Onward(s, After(s, step))
  {
  }

  /** A step that starts no approved tool leaves every claimed approval alone. */
  lemma StepIsLater(c: Config, s: Shared, step: Step, me: Execution)
    requires Enabled(c, s, step) && StoreOk(s.approvals, s.tokens)
    requires step.Run? && step.start.approval.Some? ==> step.start.actor != me
    ensures Later(s, After(s, step), me)
  {
    StepIsOnward(c, s, step);
  }

  lemma StepIsApart(c: Config, s: Shared, step: Step, me: Execution)
    requires Enabled(c, s, step) && StoreOk(s.approvals, s.tokens) && !TakenBy(step, me)
    ensures Apart(s, After(s, step), me)
  {
    StepIsLater(c, s, step, me);
  }

  lemma TokensKept(c: Config, s: Shared, step: Step)
    requires TokensOk(c, s.tokens, s.issued, s.offers) && Enabled(c, s, step)
    ensures TokensOk(c, After(s, step).tokens, After(s, step).issued, After(s, step).offers)
  {
    var s' := After(s, step);
    forall k | k in s'.tokens
      ensures k.capability in s'.issued && TokenOk(c, k, s'.tokens[k].pending, s'.tokens[k].base, s'.offers)
    {
      if k in s.tokens {
        TokenStays(c, k, s.tokens[k].pending, s.tokens[k].base, s.offers, s'.offers);
      }
    }
  }

  lemma TokenStays(c: Config, k: Key, p: Pending, base: nat, offers: set<Offer>, offers': set<Offer>)
    requires TokenOk(c, k, p, base, offers) && offers <= offers'
    ensures TokenOk(c, k, p, base, offers')
  {
  }

  lemma StoreKept(c: Config, s: Shared, step: Step)
    requires StoreOk(s.approvals, s.tokens) && Enabled(c, s, step)
    ensures StoreOk(After(s, step).approvals, After(s, step).tokens)
  {
  }

  lemma RunKept(c: Config, s: Shared, start: Start)
    requires StartsOk(c, s.starts, s.tokens, s.offers) && Enabled(c, s, Run(start))
    ensures var s' := After(s, Run(start)); StartsOk(c, s'.starts, s'.tokens, s'.offers)
  {
    var s' := After(s, Run(start));
    forall i | 0 <= i < |s.starts|
      ensures StartOk(c, s.starts[i], s'.tokens, s'.offers)
      ensures start.approval.Some? ==> s.starts[i].approval != start.approval
    {
      assert StartOk(c, s.starts[i], s.tokens, s.offers);
    }
  }

  lemma StartsKept(c: Config, s: Shared, step: Step)
    requires StartsOk(c, s.starts, s.tokens, s.offers) && StoreOk(s.approvals, s.tokens)
    requires Enabled(c, s, step) && !step.Run?
    ensures StartsOk(c, After(s, step).starts, After(s, step).tokens, After(s, step).offers)
  {
    var s' := After(s, step);
    forall i | 0 <= i < |s.starts| ensures StartOk(c, s.starts[i], s'.tokens, s'.offers) {
      assert StartOk(c, s.starts[i], s.tokens, s.offers);
    }
  }

  lemma OffersKept(c: Config, s: Shared, step: Step)
    requires OffersOk(c, s.offers) && Enabled(c, s, step)
    ensures OffersOk(c, After(s, step).offers)
  {
  }

  /** Every atomic step keeps the invariant, and to everyone but the one who takes it others are `Apart`. */
  lemma StepKeeps(c: Config, s: Shared, step: Step)
    requires SharedOk(c, s) && Enabled(c, s, step)
    ensures SharedOk(c, After(s, step))
    ensures forall e: Execution | !TakenBy(step, e) :: Apart(s, After(s, step), e)
  {
    TokensKept(c, s, step);
    StoreKept(c, s, step);
    OffersKept(c, s, step);
    if step.Run? {
      RunKept(c, s, step.start);
    } else {
      StartsKept(c, s, step);
    }
    forall e: Execution | !TakenBy(step, e) ensures Apart(s, After(s, step), e) {
      StepIsApart(c, s, step, e);
    }
  }

  // ----- What happens while an execution waits -----

  /** A run of steps from one state to another, none of them taken by `me`. */
  ghost predicate IsOthersRun(c: Config, states: seq<Shared>, steps: seq<Step>, me: Execution) {
    && |states| == |steps| + 1
    && forall i | 0 <= i < |steps| ::
         Enabled(c, states[i], steps[i]) && !TakenBy(steps[i], me) && states[i + 1] == After(states[i], steps[i])
  }

  ghost predicate ByOthers(c: Config, s: Shared, s': Shared, me: Execution) {
    exists states, steps :: IsOthersRun(c, states, steps, me) && states[0] == s && states[|steps|] == s'
  }

  /** Whatever the others do meanwhile, the invariant holds and the waiting execution's approvals are safe. */
  lemma OthersKeep(c: Config, s: Shared, s': Shared, me: Execution)
    requires SharedOk(c, s) && ByOthers(c, s, s', me)
    ensures SharedOk(c, s') && Apart(s, s', me)
  {
    var states, steps :| IsOthersRun(c, states, steps, me) && states[0] == s && states[|steps|] == s';
    OthersRunKeeps(c, states, steps, me, |steps|);
  }

  lemma {:induction false} OthersRunKeeps(c: Config, states: seq<Shared>, steps: seq<Step>, me: Execution, k: nat)
    requires IsOthersRun(c, states, steps, me) && k <= |steps| && SharedOk(c, states[0])
    ensures SharedOk(c, states[k]) && Apart(states[0], states[k], me)
  {
    if k > 0 {
      OthersRunKeeps(c, states, steps, me, k - 1);
      StepKeeps(c, states[k - 1], steps[k - 1]);
      ApartTransitive(states[0], states[k - 1], states[k], me);
    }
  }

  // ----- Whole runs -----

  ghost predicate IsRun(c: Config, states: seq<Shared>, steps: seq<Step>) {
    && |states| == |steps| + 1 && states[0] == Shared(map[], map[], map[], {}, [])
    && forall i | 0 <= i < |steps| :: Enabled(c, states[i], steps[i]) && states[i + 1] == After(states[i], steps[i])
  }

  lemma {:induction false} RunKeeps(c: Config, states: seq<Shared>, steps: seq<Step>, k: nat)
    requires IsRun(c, states, steps) && k < |states|
    ensures SharedOk(c, states[k])
  {
    if k > 0 {
      RunKeeps(c, states, steps, k - 1);
      StepKeeps(c, states[k - 1], steps[k - 1]);
    }
  }

  /** From one stage to the next: a claim takes a waiting approval, a start uses an approved one. */
  predicate StageFollows(s: Shared, step: Step, stage: Stage, k: Key) {
    || stage.Waiting?
    || (k in s.tokens && s.tokens[k].stage == stage)
    || (stage.Claimed? && step == Claim(stage.actor, k, stage.approve))
    || (stage.Used? && k in s.tokens && s.tokens[k].stage == Claimed(stage.actor, true))
  }

  lemma StageChange(c: Config, s: Shared, step: Step, k: Key)
    requires Enabled(c, s, step) && k in After(s, step).tokens
    ensures StageFollows(s, step, After(s, step).tokens[k].stage, k)
    ensures k in s.tokens && !s.tokens[k].stage.Waiting? ==> !After(s, step).tokens[k].stage.Waiting?
  {
  }

  /** The step that claimed an approval, by whom and with which decision. */
  lemma {:induction false} WasClaimed(c: Config, states: seq<Shared>, steps: seq<Step>, n: nat, k: Key) returns (i: nat)
    requires IsRun(c, states, steps) && n < |states| && k in states[n].tokens && !states[n].tokens[k].stage.Waiting?
    ensures i < n
    ensures steps[i] == Claim(
      states[n].tokens[k].stage.actor, k, states[n].tokens[k].stage.Used? || states[n].tokens[k].stage.approve)
  {
    var stage := states[n].tokens[k].stage;
    StageChange(c, states[n - 1], steps[n - 1], k);
    if stage.Claimed? && steps[n - 1] == Claim(stage.actor, k, stage.approve) {
      i := n - 1;
    } else {
      i := WasClaimed(c, states, steps, n - 1, k);
    }
  }

  lemma TokenRemains(c: Config, s: Shared, step: Step, k: Key)
    requires Enabled(c, s, step) && k in s.tokens
    ensures k in After(s, step).tokens
  {
  }

  lemma {:induction false} StaysClaimed(c: Config, states: seq<Shared>, steps: seq<Step>, i: nat, n: nat, k: Key)
    requires IsRun(c, states, steps) && i < n < |states| && steps[i].Claim? && steps[i].key == k
    requires k in states[i].tokens
    ensures k in states[n].tokens && !states[n].tokens[k].stage.Waiting?
  {
    if n > i + 1 {
      StaysClaimed(c, states, steps, i, n - 1, k);
      TokenRemains(c, states[n - 1], steps[n - 1], k);
      StageChange(c, states[n - 1], steps[n - 1], k);
    }
  }

  lemma ClaimTakesWaiting(c: Config, states: seq<Shared>, steps: seq<Step>, i: nat)
    requires IsRun(c, states, steps) && i < |steps| && steps[i].Claim?
    ensures steps[i].key in states[i].tokens && states[i].tokens[steps[i].key].stage.Waiting?
  {
    RunKeeps(c, states, steps, i);
  }

  /** In every run an approval is claimed at most once. */
  lemma ClaimedOnce(c: Config, states: seq<Shared>, steps: seq<Step>, i: nat, j: nat)
    requires IsRun(c, states, steps) && i < j < |steps| && steps[i].Claim? && steps[j].Claim?
    ensures steps[i].key != steps[j].key
  {
    ClaimTakesWaiting(c, states, steps, i);
    ClaimTakesWaiting(c, states, steps, j);
    if steps[i].key == steps[j].key {
      StaysClaimed(c, states, steps, i, j, steps[i].key);
    }
  }

  /** The offer's only tool of this name has this worker, method, approval flag, revision and schema. */
  ghost predicate WasOffered(tools: seq<Tool>, tool: Tool) {
    exists i | 0 <= i < |tools| ::
      && tools[i].name == tool.name && tools[i].worker == tool.worker && tools[i].methodName == tool.methodName
      && tools[i].requiresApproval == tool.requiresApproval && tools[i].revision == tool.revision
      && tools[i].schema == tool.schema && forall j | 0 <= j < |tools| && j != i :: tools[j].name != tool.name
  }

  /** What the execution that makes a start was allowed to do: the single, approving claim of its approval. */
  ghost predicate Approved(c: Config, states: seq<Shared>, steps: seq<Step>, n: nat, i: nat, claim: nat)
    requires IsRun(c, states, steps) && n < |states| && i < |states[n].starts|
  {
    var start := states[n].starts[i];
    && start.approval.Some? && claim < n && steps[claim] == Claim(start.actor, start.approval.value, true)
    && (forall j | 0 <= j < |steps| && j != claim && steps[j].Claim? :: steps[j].key != start.approval.value)
    && (forall j | 0 <= j < |states[n].starts| && j != i :: states[n].starts[j].approval != start.approval)
    && start.approval.value in states[n].tokens
    && var stored := states[n].tokens[start.approval.value].pending;
       && stored.call == ToolCall(start.approval.value.call, start.tool.name, start.args)
       && stored.worker == start.tool.worker && stored.methodName == start.tool.methodName
       && stored.chat == start.offer.chat && stored.continuation.offered == start.offer.tools
  }

  /**
   In every run of any number of executions, a start is for a target of an offer that was made, with
   accepted arguments. It has an approval exactly when the tool requires one; then the execution that makes
   the start won the single claim of that approval for a client that approved, the call, its arguments,
   worker and method are the stored ones, and no other start has the same approval.
   */
  lemma StartIsApproved(c: Config, states: seq<Shared>, steps: seq<Step>, n: nat, i: nat) returns (claim: nat)
    requires IsRun(c, states, steps) && n < |states| && i < |states[n].starts|
    ensures var start := states[n].starts[i];
      && start.offer in states[n].offers && WasOffered(start.offer.tools, start.tool)
      && (c.accepts)(start.args, start.tool.schema) && !(c.reserved)(start.tool.name)
      && (start.approval.Some? <==> start.tool.requiresApproval)
      && (start.tool.requiresApproval ==> Approved(c, states, steps, n, i, claim))
  {
    claim := 0;
    RunKeeps(c, states, steps, n);
    var start := states[n].starts[i];
    assert StartOk(c, start, states[n].tokens, states[n].offers);
    IsOffered(c, start.offer.tools, start.tool);
    if start.approval.Some? {
      var k := start.approval.value;
      assert TokenOk(c, k, states[n].tokens[k].pending, states[n].tokens[k].base, states[n].offers);
      claim := WasClaimed(c, states, steps, n, k);
      forall j | 0 <= j < |steps| && j != claim && steps[j].Claim? ensures steps[j].key != k {
        ClaimedOnce(c, states, steps, if j < claim then j else claim, if j < claim then claim else j);
      }
    }
  }

  lemma IsOffered(c: Config, tools: seq<Tool>, tool: Tool)
    requires OfferedAs(tools, tool) && MayOffer(c, tools)
    ensures WasOffered(tools, tool) && !(c.reserved)(tool.name)
  {
    var offered :| offered in tools && SameTarget(offered, tool);
    var i :| 0 <= i < |tools| && tools[i] == offered;
  }
}
