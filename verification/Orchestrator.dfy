/**
 The chat loop: a model turn, its tool calls, a pause for approval and the resume after it. An execution
 owns its continuation and shares everything else with the executions that run beside it.
 */
module Orchestrator {
  import opened Base
  import opened Transcript
  import opened SharedState
  import opened TextSink

  datatype ChatError =
    | EmptyHistory | CancelledByClient | TurnLimitExceeded | TimeLimitExceeded | OutputLimitExceeded
    | InvalidToolCalls | ApprovalNotFound | InvalidContinuation | StaleApproval | External

  datatype ChatResponse =
    | Completed(history: seq<Message>)
    | ApprovalRequired(history: seq<Message>, key: Key)

  /** What answering one call leads to. */
  datatype Reply = Answered(state: Continuation) | Paused(state: Continuation, key: Key)

  /** What a call with a current target leads to. */
  datatype Dispatched = Done(result: ToolResult) | Asking(key: Key)

  /** What one round of the loop leads to. */
  datatype Progress = Going(state: Continuation) | Ended(response: ChatResponse)

  // ----- What the outside does -----

  /** What the registry answers when it is asked for a tool again. */
  datatype Lookup = LookupTimeout | Unavailable | Gone | Current(tool: Tool)

  /** What becomes of a call of the Worker executor; `reason` is the text of an error result. */
  datatype Work =
    | CancelledBefore
    | Lost
    | StaleSchema(reason: Value)
    | Failed(reason: Value)
    | Returned(content: Value)

  /** What one call of a response meets: a cancel, a built-in tool's result, the registry, a worker, the store. */
  datatype Circumstances = Circumstances(
    interrupted: bool, builtIn: Value, builtInError: bool, refusal: Value, looked: Lookup, work: Work,
    capability: Capability, saveFails: bool, cancelledAfter: bool)

  /** What the model does in one turn. */
  datatype Said = Said(failed: bool, content: Value, calls: seq<ToolCall>, deltas: seq<Delta>)

  /** The continuation and the message that an error is about. */
  datatype Cause = Cause(state: Continuation, message: Message)

  /** The registry still has the offered target under this name, and its schema accepts the arguments. */
  predicate Fresh(c: Config, offered: seq<Tool>, name: ToolName, args: Value, looked: Lookup) {
    && looked.Current? && Find(offered, name).Some?
    && var was, now := Find(offered, name).value, looked.tool;
       && was.name == now.name && was.worker == now.worker && was.methodName == now.methodName
       && was.requiresApproval == now.requiresApproval && was.revision == now.revision && was.schema == now.schema
       && (c.accepts)(args, now.schema)
  }

  /** The executor's answer becomes a result, an error result unless the worker returned. */
  predicate Yields(work: Work, approved: bool) {
    work.Returned? || work.Failed? || (work.StaleSchema? && !approved)
  }

  function Yielded(work: Work, id: CallId, name: ToolName): ToolResult
    requires Yields(work, false)
  {
    if work.Returned? then ToolResult(id, name, work.content, false) else ToolResult(id, name, work.reason, true)
  }

  /**
   An error about a limit or a list of calls has its reason in the chat: a history that has used up its
   turns, a message that does not fit, or a response whose calls fail the check.
   */
  predicate Caused(c: Config, from: Continuation, base: nat, error: ChatError, cause: Cause) {
    match error
    case TurnLimitExceeded =>
      Counted(c, cause.state, base) && from.history <= cause.state.history && cause.state.turns == c.maxTurns
    case OutputLimitExceeded =>
      Counted(c, cause.state, base) && from.history <= cause.state.history && !Fits(c, cause.state, cause.message)
    case InvalidToolCalls =>
      cause.message.Response? && cause.message.calls != [] && !ValidList(c, cause.message.calls)
    case EmptyHistory | ApprovalNotFound | InvalidContinuation | StaleApproval => false
    case _ => true
  }

  predicate ContainsCall(history: seq<Message>, call: ToolCall) {
    exists i | 0 <= i < |history| :: history[i].Response? && call in history[i].calls
  }

  /** The generated part of a continuation. */
  function Generated(st: Continuation, base: nat): seq<Message>
    requires base <= |st.history|
  {
    st.history[base..]
  }

  /** The continuation is within its limits, sound, and owes exactly these calls. */
  predicate Owes(c: Config, st: Continuation, base: nat, calls: seq<ToolCall>) {
    Counted(c, st, base) && Sound(c, Generated(st, base)) && Owed(Generated(st, base)) == Some(calls)
  }

  predicate Fits(c: Config, st: Continuation, m: Message) {
    SaturatingAdd(st.outputBytes, MessageBytes(c, m)) <= c.maxBytes
  }

  function Push(c: Config, st: Continuation, m: Message): Continuation {
    st.(history := st.history + [m],
        outputBytes := SaturatingAdd(st.outputBytes, MessageBytes(c, m)),
        turns := if m.Response? then st.turns + 1 else st.turns)
  }

  lemma PushCounts(c: Config, st: Continuation, base: nat, m: Message)
    requires Counted(c, st, base) && Fits(c, st, m) && (m.Response? ==> st.turns < c.maxTurns)
    ensures Counted(c, Push(c, st, m), base)
    ensures Owed(Generated(Push(c, st, m), base)) == OwedAfter(Owed(Generated(st, base)), m)
    ensures Sound(c, Generated(st, base)) && (m.Response? ==> ValidList(c, m.calls)) ==>
      Sound(c, Generated(Push(c, st, m), base))
  {
    var generated := st.history[base..];
    assert (st.history + [m])[base..] == generated + [m];
    assert (generated + [m])[..|generated|] == generated;
    OwedAppend(generated, m);
  }

  method AppendResult(c: Config, st: Continuation, result: ToolResult, ghost base: nat, ghost owed: seq<ToolCall>)
    returns (r: Result<Continuation, ChatError>)
    requires Owes(c, st, base, owed) && owed != [] && result.id == owed[0].id && result.name == owed[0].name
    ensures r.Ok? <==> Fits(c, st, Answer(result))
    ensures r.Ok? ==> r.value == Push(c, st, Answer(result)) && Owes(c, r.value, base, owed[1..])
    ensures r.Err? ==> r.error == OutputLimitExceeded
  {
    var bytes := SaturatingAdd(st.outputBytes, (c.resultBytes)(result));
    if bytes > c.maxBytes {
      return Err(OutputLimitExceeded);
    }
    PushCounts(c, st, base, Answer(result));
    r := Ok(st.(outputBytes := bytes, history := st.history + [Answer(result)]));
  }

  class ChatOrchestrator {
    const config: Config
    /** Where the steps that other executions take meanwhile lead. */
    const others: (Shared, Execution, nat) -> Shared
    var shared: Shared
    var clock: nat

    ghost predicate Valid()
      reads this
    {
      && config.maxTurns <= USIZE_MAX
      && SharedOk(config, shared)
      && forall s, me, n {:trigger others(s, me, n)} :: ByOthers(config, s, others(s, me, n), me)
    }

    constructor (config: Config, others: (Shared, Execution, nat) -> Shared)
      requires config.maxTurns <= USIZE_MAX
      requires forall s, me, n {:trigger others(s, me, n)} :: ByOthers(config, s, others(s, me, n), me)
      ensures Valid() && shared == Shared(map[], map[], map[], {}, [])
    {
      this.config, this.others := config, others;
      shared, clock := Shared(map[], map[], map[], {}, []), 0;
    }

    /** A scheduling point: the others act, then this execution takes one atomic step. */
    method Await(me: Execution)
      requires Valid()
      modifies this
      ensures Valid() && Apart(old(shared), shared, me)
    {
      OthersKeep(config, shared, others(shared, me, clock), me);
      shared, clock := others(shared, me, clock), clock + 1;
    }

    method Take(step: Step, ghost me: Execution)
      requires Valid() && Enabled(config, shared, step)
      modifies this`shared
      ensures Valid() && shared == After(old(shared), step) && Onward(old(shared), shared)
      ensures !(step.Run? && step.start.approval.Some?) ==> Later(old(shared), shared, me)
    {
      StepKeeps(config, shared, step);
      StepIsOnward(config, shared, step);
      if !(step.Run? && step.start.approval.Some?) {
        StepIsLater(config, shared, step, me);
      }
      shared := After(shared, step);
    }

    /** Call the Worker executor. */
    method Execute(start: Start, id: CallId, work: Work) returns (r: Result<ToolResult, ChatError>)
      requires Valid() && Enabled(config, shared, Run(start))
      modifies this
      ensures Valid() && Onward(old(shared), shared)
      ensures start.approval.None? ==> Later(old(shared), shared, start.actor)
      ensures r.Ok? <==> Yields(work, start.approval.Some?)
      ensures r.Ok? ==> r.value == Yielded(work, id, start.tool.name)
      ensures r.Err? ==> r.error != OutputLimitExceeded && (r.error == StaleApproval <==> work.StaleSchema?)
      ensures r.Err? ==> r.error in {CancelledByClient, StaleApproval, External}
      ensures if work.CancelledBefore? then shared == old(shared) else Started(old(shared), shared, start)
      ensures start.approval.Some? ==> IsUsedBy(shared, start.approval.value, start.actor, !work.CancelledBefore?)
    {
      if work.CancelledBefore? {
        return Err(CancelledByClient);
      }
      Await(start.actor);
      label started: Take(Run(start), start.actor);
      OnwardTransitive(old(shared), old@started(shared), shared);
      if start.approval.None? {
        LaterTransitive(old(shared), old@started(shared), shared, start.actor);
      }
      StartIsOnly(old(shared), old@started(shared), start);
      match work {
        case Returned(content) => return Ok(ToolResult(id, start.tool.name, content, false));
        case Failed(reason) => return Ok(ToolResult(id, start.tool.name, reason, true));
        case StaleSchema(reason) =>
          if start.approval.Some? {
            return Err(StaleApproval);
          }
          return Ok(ToolResult(id, start.tool.name, reason, true));
        case _ => return Err(External);
      }
    }

    /** Pause at a call that needs approval: issue a capability and store the continuation under it. */
    method SaveApproval(
      chat: ChatId, st: Continuation, base: nat, call: ToolCall, rest: seq<ToolCall>, tool: Tool, offered: seq<Tool>,
      me: Execution, capability: Capability, fails: bool)
      returns (r: Result<Key, ChatError>)
      requires Valid() && Owes(config, st, base, [call] + rest)
      requires st.turns > 0 && Offer(chat, st.turns - 1, offered) in shared.offers
      requires NeedsApproval(offered, call.name) && SameTarget(Find(offered, call.name).value, tool)
      modifies this
      ensures Valid() && Later(old(shared), shared, me) && NoneBy(old(shared), shared, me)
      ensures r.Ok? <==> !fails && capability !in old(shared).issued
      ensures r.Ok? ==> IsWaiting(shared, r.value, chat, st, base, call, rest, offered)
      ensures r.Ok? ==> shared.approvals[r.value].worker == tool.worker
      ensures r.Ok? ==> shared.approvals[r.value].methodName == tool.methodName
      ensures r.Err? ==> r.error == External
    {
      if capability in shared.issued {
        return Err(External);
      }
      var key := Key(chat, call.id, capability);
      var pending := Pending(
        chat, call, tool.worker, tool.methodName, st.(offered := offered, remaining := rest));
      assert TokenOk(config, key, pending, base, shared.offers);
      assert key !in shared.tokens;
      Take(Issue(me, capability), me);
      label issued: Await(me);
      LaterTransitive(old(shared), old@issued(shared), shared, me);
      if fails {
        return Err(External);
      }
      label saved: Take(Save(me, key, pending, base), me);
      LaterTransitive(old(shared), old@saved(shared), shared, me);
      return Ok(key);
    }

    /** A call whose target is still the offered one: start it, or pause at it. */
    method Dispatch(
      chat: ChatId, st: Continuation, base: nat, call: ToolCall, rest: seq<ToolCall>, offered: seq<Tool>,
      me: Execution, at: Circumstances)
      returns (r: Result<Dispatched, ChatError>)
      requires Valid() && Owes(config, st, base, [call] + rest)
      requires st.turns > 0 && Offer(chat, st.turns - 1, offered) in shared.offers
      requires Fresh(config, offered, call.name, call.args, at.looked)
      modifies this
      ensures Valid() && Later(old(shared), shared, me)
      ensures r.Err? ==> r.error in {CancelledByClient, External}
      ensures at.looked.tool.requiresApproval ==>
        && NoneBy(old(shared), shared, me)
        && (r.Ok? <==> !at.saveFails && !at.cancelledAfter && at.capability !in old(shared).issued)
        && (r.Ok? ==> r.value.Asking? && IsWaiting(shared, r.value.key, chat, st, base, call, rest, offered))
      ensures !at.looked.tool.requiresApproval ==>
        && (r.Ok? <==> Yields(at.work, false))
        && (r.Ok? ==> r.value == Done(Yielded(at.work, call.id, call.name)))
        && (!at.work.CancelledBefore? ==> Started(
              old(shared), shared, Start(me, Offer(chat, st.turns - 1, offered), at.looked.tool, call.args, None)))
    {
      var current := at.looked.tool;
      if current.requiresApproval {
        var saved := SaveApproval(
          chat, st, base, call, rest, current, offered, me, at.capability, at.saveFails);
        if saved.Err? || at.cancelledAfter {
          return Err(if saved.Err? then saved.error else CancelledByClient);
        }
        return Ok(Asking(saved.value));
      }
      assert OfferedAs(offered, current);
      var start := Start(me, Offer(chat, st.turns - 1, offered), current, call.args, None);
      var executed := Execute(start, call.id, at.work);
      return if executed.Ok? then Ok(Done(executed.value)) else Err(executed.error);
    }

    /** A call of a tool that is not built in: look its target up again, and refuse it if that has changed. */
    method Consider(
      chat: ChatId, st: Continuation, base: nat, call: ToolCall, rest: seq<ToolCall>, offered: seq<Tool>,
      me: Execution, at: Circumstances)
      returns (r: Result<Dispatched, ChatError>)
      requires Valid() && Owes(config, st, base, [call] + rest) && !at.interrupted && !(config.reserved)(call.name)
      requires st.turns > 0 && Offer(chat, st.turns - 1, offered) in shared.offers
      modifies this
      ensures Valid() && Later(old(shared), shared, me)
      ensures r.Ok? ==> !Fails(config, offered, call, at) && (r.value.Asking? <==> Pauses(config, offered, call, at))
      ensures r.Err? ==> r.error in {CancelledByClient, TimeLimitExceeded, External}
      ensures r.Err? ==> Fails(config, offered, call, at)
                         || (Pauses(config, offered, call, at) && at.capability in shared.issued)
      ensures r.Ok? && r.value.Done? ==>
        r.value.result == if Starts(config, offered, call, at) then Yielded(at.work, call.id, call.name)
                          else ToolResult(call.id, call.name, at.refusal, true)
      ensures r.Ok? && r.value.Asking? ==> IsWaiting(shared, r.value.key, chat, st, base, call, rest, offered)
      ensures r.Ok? && Starts(config, offered, call, at) ==> Started(
        old(shared), shared, Start(me, Offer(chat, st.turns - 1, offered), at.looked.tool, call.args, None))
      ensures !Starts(config, offered, call, at) ==> NoneBy(old(shared), shared, me)
    {
      var refused := Done(ToolResult(call.id, call.name, at.refusal, true));
      var found := Find(offered, call.name);
      if found.None? {
        return Ok(refused);
      }
      Await(me);
      if at.looked.LookupTimeout? {
        return Err(TimeLimitExceeded);
      }
      if !at.looked.Current? || !SameTarget(found.value, at.looked.tool)
        || !(config.accepts)(call.args, at.looked.tool.schema)
      {
        return Ok(refused);
      }
      label asking: r := Dispatch(chat, st, base, call, rest, offered, me, at);
      LaterTransitive(old(shared), old@asking(shared), shared, me);
      if r.Ok? && r.value.Done? {
        StartedAfter(old(shared), old@asking(shared), shared,
          Start(me, Offer(chat, st.turns - 1, offered), at.looked.tool, call.args, None));
      }
    }

    /**
     One call of a response: answer it, or pause at it. A tool is started exactly when it is not built in,
     its target is still the offered one, its arguments are accepted and it needs no approval; the chat
     pauses exactly when it needs one. Everything else is answered by an error result.
     */
    method AnswerCall(
      chat: ChatId, st: Continuation, base: nat, call: ToolCall, rest: seq<ToolCall>, offered: seq<Tool>,
      me: Execution, at: Circumstances)
      returns (r: Result<Reply, ChatError>, ghost cause: Cause)
      requires Valid() && Owes(config, st, base, [call] + rest)
      requires st.turns > 0 && Offer(chat, st.turns - 1, offered) in shared.offers
      modifies this
      ensures Valid() && Later(old(shared), shared, me)
      ensures r.Ok? && r.value.Answered? ==> Follows(config, st, r.value.state, base, rest)
      ensures r.Ok? ==> AnsweredAs(config, st, call, offered, at, r.value)
      ensures r.Ok? && Starts(config, offered, call, at) ==> Started(
        old(shared), shared, Start(me, Offer(chat, st.turns - 1, offered), at.looked.tool, call.args, None))
      ensures !Starts(config, offered, call, at) ==> NoneBy(old(shared), shared, me)
      ensures r.Ok? && r.value.Paused? ==> IsWaiting(shared, r.value.key, chat, st, base, call, rest, offered)
      ensures r.Err? ==> Fails(config, offered, call, at) || r.error == OutputLimitExceeded
                         || (Pauses(config, offered, call, at) && at.capability in shared.issued)
      ensures r.Err? ==> Caused(config, st, base, r.error, cause)
    {
      var result := ToolResult(call.id, call.name, at.builtIn, at.builtInError);
      cause := Cause(st, Answer(result));
      if at.interrupted {
        return Err(CancelledByClient), cause;
      }
      if !(config.reserved)(call.name) {
        var done := Consider(chat, st, base, call, rest, offered, me, at);
        if done.Err? {
          return Err(done.error), cause;
        }
        if done.value.Asking? {
          return Ok(Paused(st, done.value.key)), cause;
        }
        result := done.value.result;
      }
      cause := Cause(st, Answer(result));
      var appended := AppendResult(config, st, result, base, [call] + rest);
      r := if appended.Ok? then Ok(Answered(appended.value)) else Err(appended.error);
    }

    /** Answer the calls in order until one of them has to wait for approval. */
    method ProcessToolCalls(
      chat: ChatId, st: Continuation, base: nat, calls: seq<ToolCall>, offered: seq<Tool>, me: Execution)
      returns (r: Result<Reply, ChatError>, ghost cause: Cause)
      requires Valid() && Owes(config, st, base, calls)
      requires st.turns > 0 && Offer(chat, st.turns - 1, offered) in shared.offers
      modifies this
      ensures Valid() && Later(old(shared), shared, me)
      ensures r.Ok? && r.value.Answered? ==> Follows(config, st, r.value.state, base, [])
      ensures r.Ok? && r.value.Paused? ==>
        && IsPaused(shared, r.value.key, chat, r.value.state, base) && st.history <= r.value.state.history
        && r.value.state.turns == st.turns
      ensures r.Err? ==> Caused(config, st, base, r.error, cause)
    {
      var state, i := st, 0;
      while i < |calls|
        invariant 0 <= i <= |calls|
        invariant Valid() && Later(old(shared), shared, me)
        invariant Follows(config, st, state, base, calls[i..])
      {
        assert calls[i..] == [calls[i]] + calls[i + 1..];
        var at: Circumstances := *;
        label before: var reply, why := AnswerCall(chat, state, base, calls[i], calls[i + 1..], offered, me, at);
        LaterTransitive(old(shared), old@before(shared), shared, me);
        if reply.Err? || reply.value.Paused? {
          return reply, why;
        }
        state, i := reply.value.state, i + 1;
      }
      assert calls[i..] == [];
      cause := *;
      r := Ok(Answered(state));
    }

    /**
     What the model says: its deltas go to the sink as they come, and the response is accepted exactly when
     it has calls or continues them.
     */
    method Converse(turn: nat, sink: Sink?, said: Said) returns (ok: bool)
      requires Valid() && Upto(sink, turn)
      modifies sink
      ensures Upto(sink, turn + 1)
      ensures sink != null ==> Emitted(sink.emitted, turn) == Joined(said.deltas)
      ensures ok <==> !said.failed && (said.calls == [] ==> Continues(config, sink, turn, said.content))
    {
      if sink != null {
        var text := sink.StreamDeltas(turn, said.deltas);
        if text != "" && said.calls == [] {
          var final := (config.textOf)(said.content);
          if final.None? || !(text <= final.value) {
            return false;
          }
        }
      }
      return !said.failed;
    }

    /** One model turn: offer the tools, take the response and append it if it fits. */
    method AskModel(
      chat: ChatId, st: Continuation, base: nat, offered: seq<Tool>, me: Execution, sink: Sink?, said: Said)
      returns (r: Result<Continuation, ChatError>)
      requires Valid() && Owes(config, st, base, []) && st.turns < config.maxTurns && Upto(sink, st.turns)
      requires MayOffer(config, offered)
      modifies this, sink
      ensures Valid() && Later(old(shared), shared, me) && NoneBy(old(shared), shared, me) && Upto(sink, st.turns + 1)
      ensures r.Ok? <==>
        && !said.failed && (said.calls == [] ==> Continues(config, sink, st.turns, said.content))
        && Fits(config, st, Response(said.content, said.calls))
      ensures r.Ok? ==>
        && r.value == Push(config, st, Response(said.content, said.calls)) && Counted(config, r.value, base)
        && Owed(Generated(r.value, base)) == Some(said.calls) && Offer(chat, st.turns, offered) in shared.offers
        && (ValidList(config, said.calls) ==> Sound(config, Generated(r.value, base)))
      ensures r.Err? ==> r.error == External || r.error == OutputLimitExceeded
      ensures r.Err? && r.error == OutputLimitExceeded ==> !Fits(config, st, Response(said.content, said.calls))
    {
      Propose(Offer(chat, st.turns, offered), me);
      var ok := Converse(st.turns, sink, said);
      if !ok {
        return Err(External);
      }
      var bytes := SaturatingAdd(st.outputBytes, (config.responseBytes)(said.content, said.calls));
      if bytes > config.maxBytes {
        return Err(OutputLimitExceeded);
      }
      PushCounts(config, st, base, Response(said.content, said.calls));
      r := Ok(st.(
        outputBytes := bytes, turns := SaturatingAdd(st.turns, 1),
        history := st.history + [Response(said.content, said.calls)]));
    }

    /** One round of the loop: a model turn, and the answers to its calls when it has some. */
    method TakeTurn(
      chat: ChatId, st: Continuation, base: nat, offered: seq<Tool>, me: Execution, sink: Sink?, said: Said)
      returns (r: Result<Progress, ChatError>, ghost cause: Cause)
      requires Valid() && Owes(config, st, base, []) && st.turns < config.maxTurns && Upto(sink, st.turns)
      requires MayOffer(config, offered)
      modifies this, sink
      ensures Valid() && Later(old(shared), shared, me)
      ensures r.Ok? ==> (r.value.Ended? && r.value.response.Completed? <==> said.calls == [])
      ensures r.Ok? && r.value.Going? ==>
        && Owes(config, r.value.state, base, []) && st.history <= r.value.state.history
        && r.value.state.turns == st.turns + 1 && Upto(sink, st.turns + 1)
      ensures r.Ok? && r.value.Ended? ==>
        st.history <= r.value.response.history && Ends(config, shared, chat, base, sink, r.value.response)
      ensures r.Err? ==> Caused(config, st, base, r.error, cause)
    {
      cause := Cause(st, Response(said.content, said.calls));
      var asked := AskModel(chat, st, base, offered, me, sink, said);
      if asked.Err? {
        return Err(asked.error), cause;
      }
      var calls := said.calls;
      if calls == [] {
        LastResponseCompletes(config, st, asked.value, base);
        return Ok(Ended(Completed(asked.value.history))), cause;
      }
      var valid := ValidateCalls(config, calls);
      if !valid {
        return Err(InvalidToolCalls), cause;
      }
      var state := asked.value.(offered := offered);
      label calling: var reply, why := ProcessToolCalls(chat, state, base, calls, offered, me);
      LaterTransitive(old(shared), old@calling(shared), shared, me);
      cause := why;
      if reply.Err? {
        return Err(reply.error), cause;
      }
      if reply.value.Paused? {
        PausedIsCounted(config, shared, reply.value.key, chat, reply.value.state, base);
        return Ok(Ended(ApprovalRequired(reply.value.state.history, reply.value.key))), cause;
      }
      r := Ok(Going(reply.value.state));
    }

    /** The server's loop: model turns until a response has no calls or a call has to wait for approval. */
    method RunLoop(chat: ChatId, st: Continuation, base: nat, me: Execution, sink: Sink?)
      returns (r: Result<ChatResponse, ChatError>, ghost cause: Cause)
      requires Valid() && Owes(config, st, base, []) && Upto(sink, st.turns)
      modifies this, sink
      ensures Valid() && Later(old(shared), shared, me)
      ensures r.Ok? ==> st.history <= r.value.history && Ends(config, shared, chat, base, sink, r.value)
      ensures r.Err? ==> Caused(config, st, base, r.error, cause)
    {
      var state := st;
      while true
        invariant Valid() && Later(old(shared), shared, me)
        invariant Owes(config, state, base, []) && st.history <= state.history && Upto(sink, state.turns)
        decreases config.maxTurns - state.turns
      {
        var interrupted: bool, offered: seq<Tool>, said: Said := *, *, *;
        cause := Cause(state, Response(said.content, said.calls));
        if interrupted {
          return Err(CancelledByClient), cause;
        }
        if state.turns >= config.maxTurns {
          return Err(TurnLimitExceeded), cause;
        }
        var valid := ValidateTools(config, offered);
        if !valid {
          return Err(External), cause;
        }
        label asking: var turn, why := TakeTurn(chat, state, base, offered, me, sink, said);
        LaterTransitive(old(shared), old@asking(shared), shared, me);
        if turn.Err? {
          return Err(turn.error), why;
        }
        if turn.value.Ended? {
          return Ok(turn.value.response), why;
        }
        state := turn.value.state;
      }
    }

    /** Offer the tools to the model and wait for its answer. */
    method Propose(offer: Offer, me: Execution)
      requires Valid() && MayOffer(config, offer.tools)
      modifies this
      ensures Valid() && Later(old(shared), shared, me) && NoneBy(old(shared), shared, me) && offer in shared.offers
    {
      Take(SharedState.Propose(offer), me);
      label asked: Await(me);
      LaterTransitive(old(shared), old@asked(shared), shared, me);
    }

    /** Take the approval out of the store. Only one claim of an approval can succeed. */
    method ClaimApproval(key: Key, me: Execution, approve: bool, fails: bool) returns (r: Result<Pending, ChatError>)
      requires Valid()
      modifies this
      ensures Valid() && Onward(old(shared), shared) && NoneBy(old(shared), shared, me)
      ensures key !in shared.approvals || fails
      ensures r.Ok? ==>
        && key in shared.tokens && shared.tokens[key].stage == Claimed(me, approve)
        && r.value == shared.tokens[key].pending
      ensures r == Err(External) <==> fails
      ensures r.Err? ==> r.error == External || r.error == ApprovalNotFound
      ensures r.Err? ==> Apart(old(shared), shared, me)
    {
      Await(me);
      if fails {
        return Err(External);
      }
      if key !in shared.approvals {
        return Err(ApprovalNotFound);
      }
      var pending := shared.approvals[key];
      label claiming: Take(Claim(me, key, approve), me);
      OnwardTransitive(old(shared), old@claiming(shared), shared);
      return Ok(pending);
    }

    /**
     Run the approved tool. The approval is stale exactly when the registry no longer has the stored target,
     the target refuses the stored arguments, or the worker's schema has changed at the start.
     */
    method RunApproved(key: Key, pending: Pending, ghost base: nat, me: Execution, looked: Lookup, work: Work)
      returns (r: Result<ToolResult, ChatError>)
      requires Valid() && key in shared.tokens && shared.tokens[key] == Token(pending, base, Claimed(me, true))
      modifies this
      ensures Valid() && Onward(old(shared), shared)
      ensures r == Err(StaleApproval) <==> Stale(config, pending, looked, work)
      ensures r.Ok? <==> StillCurrent(config, pending, looked) && Yields(work, true)
      ensures r.Ok? ==> r.value == Yielded(work, pending.call.id, pending.call.name)
      ensures r.Err? ==> r.error in {TimeLimitExceeded, CancelledByClient, StaleApproval, External}
      ensures IsUsedBy(shared, key, me, StillCurrent(config, pending, looked) && !work.CancelledBefore?)
      ensures StillCurrent(config, pending, looked) && !work.CancelledBefore? ==>
        Started(old(shared), shared, ApprovedStart(pending, key, me, looked.tool))
      ensures !StillCurrent(config, pending, looked) ==> NoneBy(old(shared), shared, me)
    {
      var st := pending.continuation;
      Await(me);
      assert TokenOk(config, key, shared.tokens[key].pending, shared.tokens[key].base, shared.offers);
      if looked.LookupTimeout? {
        return Err(TimeLimitExceeded);
      }
      var offered := Find(st.offered, pending.call.name);
      if !(looked.Current? && offered.Some?) {
        return Err(StaleApproval);
      }
      var tool := looked.tool;
      if tool.worker != pending.worker || tool.methodName != pending.methodName || !SameTarget(offered.value, tool)
        || !(config.accepts)(pending.call.args, tool.schema)
      {
        return Err(StaleApproval);
      }
      assert OfferedAs(st.offered, tool);
      var start := Start(me, Offer(key.chat, st.turns - 1, st.offered), tool, pending.call.args, Some(key));
      label starting: r := Execute(start, pending.call.id, work);
      OnwardTransitive(old(shared), old@starting(shared), shared);
      if !work.CancelledBefore? {
        StartedAfter(old(shared), old@starting(shared), shared, start);
      }
    }

    /** Answer the call that waited: run its tool when it was approved, or refuse it. */
    method Decide(
      key: Key, pending: Pending, base: nat, me: Execution, approve: bool, looked: Lookup, work: Work, refusal: Value)
      returns (r: Result<Continuation, ChatError>, ghost cause: Cause)
      requires Valid() && key in shared.tokens && shared.tokens[key] == Token(pending, base, Claimed(me, approve))
      modifies this
      ensures Valid() && Onward(old(shared), shared)
      ensures !approve ==> shared == old(shared)
      ensures IsTaken(shared, key, base, me, approve)
      ensures r == Err(StaleApproval) <==> approve && Stale(config, pending, looked, work)
      ensures r.Err? && r.error != StaleApproval ==> Caused(config, pending.continuation, base, r.error, cause)
      ensures r.Ok? ==> Follows(config, pending.continuation, r.value, base, pending.continuation.remaining)
      ensures r.Ok? ==> (approve ==> StillCurrent(config, pending, looked) && Yields(work, true))
      ensures r.Ok? ==> r.value == Push(config, pending.continuation, Answer(Decision(pending, approve, work, refusal)))
      ensures r.Ok? && approve ==>
        && shared.tokens[key].stage == Used(me)
        && Started(old(shared), shared, ApprovedStart(pending, key, me, looked.tool))
    {
      StoredOwes(config, shared, key);
      var st := pending.continuation;
      var result := ToolResult(pending.call.id, pending.call.name, refusal, true);
      cause := Cause(st, Answer(result));
      if approve {
        var executed := RunApproved(key, pending, base, me, looked, work);
        if executed.Err? {
          return Err(executed.error), cause;
        }
        result := executed.value;
        cause := Cause(st, Answer(result));
      }
      r := AppendResult(config, st, result, base, [pending.call] + st.remaining);
    }

    /**
     Resume a paused chat. Whoever wins the claim answers the call that waited, then goes on with the
     calls after it and the model turns after those, from the stored continuation and its counters.
     */
    method Resume(
      me: Execution, chat: ChatId, call: CallId, capability: Capability, approve: bool, met: Met)
      returns (r: Result<ChatResponse, ChatError>, won: bool, base: nat, ghost cause: Cause)
      requires Valid()
      modifies this
      ensures Valid() && Onward(old(shared), shared)
      ensures r.Ok? ==> won
      ensures !won ==> r == Err(if met.claimFails then External else ApprovalNotFound)
      ensures !won ==> Apart(old(shared), shared, me)
      ensures won ==> !met.claimFails && IsTaken(shared, Key(chat, call, capability), base, me, approve)
      ensures won ==> var pending := shared.tokens[Key(chat, call, capability)].pending;
        && (r == Err(InvalidContinuation) <==> !met.decodes)
        && (r == Err(StaleApproval) <==> met.decodes && approve && Stale(config, pending, met.looked, met.work))
        && (r.Err? && r.error != InvalidContinuation && r.error != StaleApproval ==>
              Caused(config, pending.continuation, base, r.error, cause))
        && (r.Ok? ==> pending.continuation.history <= r.value.history)
      ensures r.Ok? && approve ==> HasRun(shared, Key(chat, call, capability), me)
      ensures r.Ok? ==> Ends(config, shared, chat, base, null, r.value)
    {
      var key := Key(chat, call, capability);
      cause := *;
      var claimed := ClaimApproval(key, me, approve, met.claimFails);
      if claimed.Err? {
        return Err(claimed.error), false, 0, cause;
      }
      var pending := claimed.value;
      won, base := true, shared.tokens[key].base;
      StoredCallIsContained(config, shared, key);
      if !met.decodes || !ContainsCall(pending.continuation.history, pending.call) {
        return Err(InvalidContinuation), won, base, cause;
      }
      label claimed: r, cause := GoOn(key, pending, base, me, approve, met);
      OnwardTransitive(old(shared), old@claimed(shared), shared);
    }

    /** The holder of a claimed approval answers its call and goes on after it. */
    method GoOn(key: Key, pending: Pending, base: nat, me: Execution, approve: bool, met: Met)
      returns (r: Result<ChatResponse, ChatError>, ghost cause: Cause)
      requires Valid() && key in shared.tokens && shared.tokens[key] == Token(pending, base, Claimed(me, approve))
      modifies this
      ensures Valid() && Onward(old(shared), shared)
      ensures IsTaken(shared, key, base, me, approve)
      ensures r == Err(StaleApproval) <==> approve && Stale(config, pending, met.looked, met.work)
      ensures r.Err? && r.error != StaleApproval ==> Caused(config, pending.continuation, base, r.error, cause)
      ensures r.Ok? ==> pending.continuation.history <= r.value.history
      ensures r.Ok? && approve ==> HasRun(shared, key, me)
      ensures r.Ok? ==> Ends(config, shared, key.chat, base, null, r.value)
    {
      var st := pending.continuation;
      StoredWasOffered(config, shared, key);
      var decided;
      decided, cause := Decide(key, pending, base, me, approve, met.looked, met.work, met.refusal);
      if decided.Err? {
        return Err(decided.error), cause;
      }
      label going: r, cause := Continue(key.chat, decided.value, base, st.remaining, st.offered, me);
      OnwardTransitive(old(shared), old@going(shared), shared);
      TakenStays(old@going(shared), shared, key, base, me, approve);
      if approve {
        StartStays(old(shared), old@going(shared), shared, key, ApprovedStart(pending, key, me, met.looked.tool));
      }
    }

    /** The calls a response still has, then the loop. */
    method Continue(
      chat: ChatId, st: Continuation, base: nat, calls: seq<ToolCall>, offered: seq<Tool>, me: Execution)
      returns (r: Result<ChatResponse, ChatError>, ghost cause: Cause)
      requires Valid() && Owes(config, st, base, calls)
      requires st.turns > 0 && Offer(chat, st.turns - 1, offered) in shared.offers
      modifies this
      ensures Valid() && Later(old(shared), shared, me)
      ensures r.Ok? ==> st.history <= r.value.history && Ends(config, shared, chat, base, null, r.value)
      ensures r.Err? ==> Caused(config, st, base, r.error, cause)
    {
      var reply;
      reply, cause := ProcessToolCalls(chat, st, base, calls, offered, me);
      if reply.Err? {
        return Err(reply.error), cause;
      }
      if reply.value.Paused? {
        PausedIsCounted(config, shared, reply.value.key, chat, reply.value.state, base);
        return Ok(ApprovalRequired(reply.value.state.history, reply.value.key)), cause;
      }
      label looping: r, cause := RunLoop(chat, reply.value.state, base, me, null);
      LaterTransitive(old(shared), old@looping(shared), shared, me);
    }

    /** A new chat: the request's history, then what the server generates after it. */
    method RunNewChat(me: Execution, chat: ChatId, instruction: Asked, request: seq<Asked>, sink: Sink?)
      returns (r: Result<ChatResponse, ChatError>, ghost cause: Cause)
      requires Valid() && Upto(sink, 0)
      modifies this, sink
      ensures Valid() && Later(old(shared), shared, me)
      ensures r == Err(EmptyHistory) <==> request == []
      ensures r.Err? && request != [] ==>
        Caused(config, Continuation(Requested(instruction, request), 0, 0, [], []), |request| + 1, r.error, cause)
      ensures r.Ok? ==> Requested(instruction, request) <= r.value.history
      ensures r.Ok? ==> Ends(config, shared, chat, |request| + 1, sink, r.value)
    {
      if request == [] {
        cause := *;
        return Err(EmptyHistory), cause;
      }
      var history := Requested(instruction, request);
      assert history[|request| + 1..] == [];
      r, cause := RunLoop(chat, Continuation(history, 0, 0, [], []), |request| + 1, me, sink);
    }
  }

  // ----- What the methods promise -----

  /** The call is started. */
  predicate Starts(c: Config, offered: seq<Tool>, call: ToolCall, at: Circumstances) {
    && !at.interrupted && !(c.reserved)(call.name) && Fresh(c, offered, call.name, call.args, at.looked)
    && !at.looked.tool.requiresApproval
  }

  /** The chat pauses at the call. */
  predicate Pauses(c: Config, offered: seq<Tool>, call: ToolCall, at: Circumstances) {
    && !at.interrupted && !(c.reserved)(call.name) && Fresh(c, offered, call.name, call.args, at.looked)
    && at.looked.tool.requiresApproval
  }

  /** Something outside keeps the call from being answered or stored. */
  predicate Fails(c: Config, offered: seq<Tool>, call: ToolCall, at: Circumstances) {
    || at.interrupted
    || (!(c.reserved)(call.name) && Find(offered, call.name).Some? && at.looked.LookupTimeout?)
    || (Starts(c, offered, call, at) && !Yields(at.work, false))
    || (Pauses(c, offered, call, at) && (at.saveFails || at.cancelledAfter))
  }

  /** The message that answers the call, if the chat does not pause at it. */
  predicate AnsweredAs(
    c: Config, st: Continuation, call: ToolCall, offered: seq<Tool>, at: Circumstances, reply: Reply)
  {
    && !Fails(c, offered, call, at)
    && (reply.Paused? <==> Pauses(c, offered, call, at))
    && (reply.Paused? ==> reply.state == st)
    && (reply.Answered? ==>
          var result :=
            if (c.reserved)(call.name) then ToolResult(call.id, call.name, at.builtIn, at.builtInError)
            else if Starts(c, offered, call, at) then Yielded(at.work, call.id, call.name)
            else ToolResult(call.id, call.name, at.refusal, true);
          reply.state == Push(c, st, Answer(result)))
  }

  /** The registry still has the target the approval was given for. */
  predicate StillCurrent(c: Config, pending: Pending, looked: Lookup) {
    Fresh(c, pending.continuation.offered, pending.call.name, pending.call.args, looked)
  }

  predicate Stale(c: Config, pending: Pending, looked: Lookup, work: Work) {
    !looked.LookupTimeout? && (StillCurrent(c, pending, looked) ==> work.StaleSchema?)
  }

  function ApprovedStart(pending: Pending, key: Key, me: Execution, tool: Tool): Start {
    Start(me, Offer(key.chat, if pending.continuation.turns == 0 then 0 else pending.continuation.turns - 1,
                    pending.continuation.offered),
          tool, pending.call.args, Some(key))
  }

  function Decision(pending: Pending, approve: bool, work: Work, refusal: Value): ToolResult
    requires approve ==> Yields(work, true)
  {
    if approve then Yielded(work, pending.call.id, pending.call.name)
    else ToolResult(pending.call.id, pending.call.name, refusal, true)
  }

  /** No start was made by `me` meanwhile. */
  predicate NoneBy(s: Shared, s': Shared, me: Execution) {
    s.starts <= s'.starts && forall i | |s.starts| <= i < |s'.starts| :: s'.starts[i].actor != me
  }

  /** Meanwhile exactly one start was made by its actor, this one. */
  predicate Started(s: Shared, s': Shared, start: Start) {
    && s.starts <= s'.starts
    && exists i | |s.starts| <= i < |s'.starts| ::
         && s'.starts[i] == start
         && forall j | |s.starts| <= j < |s'.starts| && j != i :: s'.starts[j].actor != start.actor
  }

  lemma StartIsOnly(s: Shared, t: Shared, start: Start)
    requires Apart(s, t, start.actor)
    ensures Started(s, After(t, Run(start)), start)
  {
    assert After(t, Run(start)).starts[|t.starts|] == start;
  }

  lemma StartedAfter(s: Shared, t: Shared, u: Shared, start: Start)
    requires NoneBy(s, t, start.actor) && Started(t, u, start)
    ensures Started(s, u, start)
  {
    var i :| |t.starts| <= i < |u.starts| && u.starts[i] == start
      && forall j | |t.starts| <= j < |u.starts| && j != i :: u.starts[j].actor != start.actor;
    assert forall j | |s.starts| <= j < |t.starts| :: u.starts[j] == t.starts[j];
  }

  /** The tool that waited for this approval was started, by the execution that claimed it. */
  ghost predicate HasRun(s: Shared, key: Key, me: Execution) {
    && key in s.tokens && s.tokens[key].stage == Used(me)
    && exists i | 0 <= i < |s.starts| :: s.starts[i].approval == Some(key) && s.starts[i].actor == me
  }

  lemma StartStays(s: Shared, t: Shared, u: Shared, key: Key, start: Start)
    requires Started(s, t, start) && Onward(t, u) && start.approval == Some(key)
    requires key in u.tokens && u.tokens[key].stage == Used(start.actor)
    ensures HasRun(u, key, start.actor)
  {
    var i :| |s.starts| <= i < |t.starts| && t.starts[i] == start;
    assert u.starts[i] == start;
  }

  /** What a resume meets: the store, the stored continuation, the registry and a worker. */
  datatype Met = Met(claimFails: bool, decodes: bool, looked: Lookup, work: Work, refusal: Value)

  function Requested(instruction: Asked, request: seq<Asked>): (r: seq<Message>)
    ensures |r| == |request| + 1
  {
    [Request(instruction)] + seq(|request|, i requires 0 <= i < |request| => Request(request[i]))
  }

  /** The sink has recorded deltas of turns before this one only. */
  ghost predicate Upto(sink: Sink?, turn: nat)
    reads sink
  {
    sink != null ==> sink.Valid() && forall t | t in sink.streamed :: t < turn
  }

  /** What the model emitted in a turn is nothing, or the content is a text that begins with it. */
  ghost predicate Continues(c: Config, sink: Sink?, turn: nat, content: Value)
    reads sink
  {
    sink != null ==>
      var text := Emitted(sink.emitted, turn);
      text == "" || ((c.textOf)(content).Some? && text <= (c.textOf)(content).value)
  }

  /** The deltas of a completed chat: under its turns, and the final response continues those of the last one. */
  ghost predicate HasSpoken(c: Config, sink: Sink?, history: seq<Message>, base: nat)
    requires IsComplete(c, history, base)
    reads sink
  {
    var turns := Responses(history[base..]);
    turns > 0 && Upto(sink, turns) && Continues(c, sink, turns - 1, history[|history| - 1].content)
  }

  lemma PausedIsCounted(c: Config, s: Shared, key: Key, chat: ChatId, st: Continuation, base: nat)
    requires SharedOk(c, s) && IsPaused(s, key, chat, st, base)
    ensures base <= |st.history| && Responses(st.history[base..]) == st.turns
  {
    assert TokenOk(c, key, s.tokens[key].pending, s.tokens[key].base, s.offers);
  }

  /** Check the registered tools before they are offered. */
  method ValidateTools(c: Config, tools: seq<Tool>) returns (valid: bool)
    ensures valid <==> MayOffer(c, tools)
  {
    var names: set<ToolName>, i := {}, 0;
    while i < |tools|
      invariant 0 <= i <= |tools|
      invariant forall n :: n in names <==> exists j | 0 <= j < i :: tools[j].name == n
      invariant forall j, k | 0 <= j < k < i :: tools[j].name != tools[k].name
      invariant forall j | 0 <= j < i :: !(c.reserved)(tools[j].name)
    {
      if (c.reserved)(tools[i].name) || tools[i].name in names {
        return false;
      }
      names, i := names + {tools[i].name}, i + 1;
    }
    return true;
  }

  method ValidateCalls(c: Config, calls: seq<ToolCall>) returns (valid: bool)
    ensures valid <==> DistinctCalls(calls) && forall i | 0 <= i < |calls| :: (c.acceptsCall)(calls[i])
  {
    var ids: set<CallId>, i := {}, 0;
    while i < |calls|
      invariant 0 <= i <= |calls|
      invariant forall id :: id in ids <==> exists j | 0 <= j < i :: calls[j].id == id
      invariant forall j, k | 0 <= j < k < i :: calls[j].id != calls[k].id
      invariant forall j | 0 <= j < i :: (c.acceptsCall)(calls[j])
    {
      if !(c.acceptsCall)(calls[i]) || calls[i].id in ids {
        return false;
      }
      ids, i := ids + {calls[i].id}, i + 1;
    }
    return true;
  }

  /** `st'` is `st` after some of its calls were answered, and still owes `owed`. */
  predicate Follows(c: Config, st: Continuation, st': Continuation, base: nat, owed: seq<ToolCall>) {
    Owes(c, st', base, owed) && st.history <= st'.history && st'.turns == st.turns
  }

  /** The approval under `key` holds this continuation, paused at `call`, and nobody has claimed it. */
  predicate IsWaiting(
    s: Shared, key: Key, chat: ChatId, st: Continuation, base: nat, call: ToolCall, rest: seq<ToolCall>,
    offered: seq<Tool>)
  {
    && key in s.approvals && key in s.tokens && key.chat == chat && key.call == call.id
    && s.tokens[key].stage == Waiting && s.tokens[key].base == base
    && s.approvals[key].continuation == st.(offered := offered, remaining := rest)
    && s.approvals[key].call == call
  }

  /** The approval under `key` holds the continuation `st`, and nobody has claimed it. */
  predicate IsPaused(s: Shared, key: Key, chat: ChatId, st: Continuation, base: nat) {
    && IsStored(s, key, chat, st.history, base)
    && s.approvals[key].continuation.turns == st.turns
    && s.approvals[key].continuation.outputBytes == st.outputBytes
  }

  predicate IsStored(s: Shared, key: Key, chat: ChatId, history: seq<Message>, base: nat) {
    && key in s.approvals && key in s.tokens && key.chat == chat
    && s.tokens[key].stage == Waiting && s.tokens[key].base == base
    && s.approvals[key].continuation.history == history
  }

  /**
   A completed history: nothing is owed, the last message is the only response without calls, the other
   responses passed the check of their calls, and what was generated is within both limits.
   */
  predicate IsComplete(c: Config, history: seq<Message>, base: nat) {
    && base < |history|
    && var generated := history[base..];
       && Owed(generated) == Some([]) && Sound(c, generated[..|generated| - 1])
       && generated[|generated| - 1].Response? && generated[|generated| - 1].calls == []
       && Responses(generated) <= c.maxTurns
       && Cap(Output(c, generated)) <= c.maxBytes
  }

  /** What a chat response says: a completed history, or one that waits in the store at a call of the chat. */
  ghost predicate Ends(c: Config, s: Shared, chat: ChatId, base: nat, sink: Sink?, r: ChatResponse)
    reads sink
  {
    match r
    case Completed(history) => IsComplete(c, history, base) && HasSpoken(c, sink, history, base)
    case ApprovalRequired(history, key) =>
      IsStored(s, key, chat, history, base) && base <= |history| && Upto(sink, Responses(history[base..]))
  }

  /** The approval was claimed by `me`; its tool may have run, but only when it was approved. */
  predicate IsTaken(s: Shared, key: Key, base: nat, me: Execution, approve: bool) {
    && key in s.tokens && s.tokens[key].base == base
    && (s.tokens[key].stage == Claimed(me, approve) || (approve && s.tokens[key].stage == Used(me)))
  }

  /** The approval is claimed for running its tool, and used exactly when it was started. */
  predicate IsUsedBy(s: Shared, key: Key, me: Execution, started: bool) {
    key in s.tokens && s.tokens[key].stage == if started then Used(me) else Claimed(me, true)
  }

  lemma TakenStays(s: Shared, s': Shared, key: Key, base: nat, me: Execution, approve: bool)
    requires Later(s, s', me) && IsTaken(s, key, base, me, approve)
    ensures IsTaken(s', key, base, me, approve) && s'.tokens[key] == s.tokens[key]
  {
  }

  lemma StoredWasOffered(c: Config, s: Shared, key: Key)
    requires SharedOk(c, s) && key in s.tokens
    ensures var st := s.tokens[key].pending.continuation;
      st.turns > 0 && Offer(key.chat, st.turns - 1, st.offered) in s.offers
  {
    assert TokenOk(c, key, s.tokens[key].pending, s.tokens[key].base, s.offers);
  }

  lemma StoredIsSound(c: Config, s: Shared, key: Key, chat: ChatId, history: seq<Message>, base: nat)
    requires SharedOk(c, s) && IsStored(s, key, chat, history, base)
    ensures base <= |history| && Owed(history[base..]).Some? && Sound(c, history[base..])
  {
    StoredOwes(c, s, key);
  }

  lemma StoredOwes(c: Config, s: Shared, key: Key)
    requires SharedOk(c, s) && key in s.tokens
    ensures var p := s.tokens[key].pending;
      Owes(c, p.continuation, s.tokens[key].base, [p.call] + p.continuation.remaining)
  {
    assert TokenOk(c, key, s.tokens[key].pending, s.tokens[key].base, s.offers);
  }

  /** A response without calls completes a history that owes nothing. */
  lemma LastResponseCompletes(c: Config, before: Continuation, st: Continuation, base: nat)
    requires Owes(c, before, base, []) && Counted(c, st, base) && before.history <= st.history
    requires |st.history| == |before.history| + 1 && st.history[|before.history|].Response?
    requires st.history[|before.history|].calls == [] && Owed(Generated(st, base)) == Some([])
    ensures IsComplete(c, st.history, base) && Responses(st.history[base..]) == st.turns
  {
    assert st.history[base..][..|before.history| - base] == before.history[base..];
  }

  /** What the store hands out always passes the check that the continuation contains the call. */
  lemma StoredCallIsContained(c: Config, s: Shared, key: Key)
    requires SharedOk(c, s) && key in s.tokens
    ensures ContainsCall(s.tokens[key].pending.continuation.history, s.tokens[key].pending.call)
  {
    var t := s.tokens[key];
    var st := t.pending.continuation;
    assert TokenOk(c, key, t.pending, t.base, s.offers);
    var generated := st.history[t.base..];
    var i := OwedIsATail(generated);
    assert st.history[t.base + i] == generated[i];
    assert t.pending.call == Owed(generated).value[0];
  }

  /**
   What a completed chat returns, however often it paused: each response's calls are answered one by one,
   in call order, directly after it, and there is no other answer.
   */
  lemma CompletedHistoryIsAnswered(c: Config, history: seq<Message>, base: nat)
    requires IsComplete(c, history, base)
    ensures var generated := history[base..];
      && (forall i | 0 <= i < |generated| && generated[i].Response? ::
            AnsweredUpTo(generated, i, |generated[i].calls|))
      && (forall j | 0 <= j < |generated| && !generated[j].Response? :: Placed(generated, j))
      && (c.maxBytes < USIZE_MAX ==> Output(c, generated) <= c.maxBytes)
  {
    SettledHistory(history[base..]);
  }
}
