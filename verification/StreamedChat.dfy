/**
 A streamed chat from its request to the last event: the chat loop with its live deltas, the returned
 history, and the reconciliation of the two.
 */
module StreamedChat {
  import opened Base
  import T = Transcript
  import S = SharedState
  import O = Orchestrator
  import opened History
  import opened TextSink
  import opened TextDelivery
  import opened CompletedChat
  import NextRequest

  // ----- The generated part in HTTP form -----

  /** A generated message other than the final one: a response with calls, or a result. */
  predicate Plays(m: DomainMessage) { (m.role == Assistant && m.calls != []) || m.role == Tool }

  predicate AllPlay(history: seq<DomainMessage>) { forall i | 0 <= i < |history| :: Plays(history[i]) }

  function Spoken(history: seq<DomainMessage>): nat {
    if history == [] then 0 else Spoken(history[1..]) + if history[0].role == Assistant then 1 else 0
  }

  lemma {:induction false} SpokenConcat(xs: seq<DomainMessage>, ys: seq<DomainMessage>)
    ensures Spoken(xs + ys) == Spoken(xs) + Spoken(ys)
    decreases xs
  {
    if xs == [] {
      assert xs + ys == ys;
    } else {
      assert (xs + ys)[1..] == xs[1..] + ys;
      SpokenConcat(xs[1..], ys);
    }
  }

  /** A run of results is no turn. */
  lemma {:induction false} RunIsSilent(history: seq<DomainMessage>)
    requires Run(history).Some?
    ensures Spoken(history[Run(history).value.1..]) == Spoken(history)
    decreases history
  {
    if history != [] && history[0].role == Tool {
      var n := Run(history).value.1;
      RunIsSilent(history[1..]);
      assert history[1..][n - 1..] == history[n..];
    }
  }

  lemma {:induction false} TurnsAfter(m: HttpMessage, rest: seq<HttpMessage>, n: nat)
    requires n <= |rest|
    ensures Turns([m] + rest, n + 1) == Turns(rest, n) + if m.role == Assistant then 1 else 0
  {
    if n > 0 {
      TurnsAfter(m, rest, n - 1);
    }
  }

  /** What is returned for such messages: no text, and as many turns as there are responses. */
  predicate Silent(g: seq<HttpMessage>, turns: nat) {
    (forall i | 0 <= i < |g| :: IsGenerated(g[i]) && !IsText(g[i])) && Turns(g, |g|) == turns
  }

  lemma {:induction false} PlayedToHttp(history: seq<DomainMessage>)
    requires AllPlay(history) && ToHttp(history).Some?
    ensures Silent(ToHttp(history).value, Spoken(history))
    decreases |history|
  {
    if history != [] {
      if history[0].role == Tool {
        var (results, n) := Run(history).value;
        RunIsSilent(history);
        PlayedToHttp(history[n..]);
        var rest := ToHttp(history[n..]).value;
        TurnsAfter(HttpMessage(Tool, Results(results), None), rest, |rest|);
      } else {
        PlayedToHttp(history[1..]);
        var rest := ToHttp(history[1..]).value;
        TurnsAfter(MessageToHttp(history[0]).value.value, rest, |rest|);
      }
    }
  }

  lemma {:induction false} ResponsesAreSpoken(rd: Reading, generated: seq<T.Message>)
    requires forall i | 0 <= i < |generated| :: !generated[i].Request?
    ensures Spoken(DomainOf(rd, generated)) == T.Responses(generated)
    decreases |generated|
  {
    if generated != [] {
      var last := |generated| - 1;
      var before, m := generated[..last], MessageOf(rd, generated[last]);
      ResponsesAreSpoken(rd, before);
      assert DomainOf(rd, generated) == DomainOf(rd, before) + [m];
      SpokenConcat(DomainOf(rd, before), [m]);
      assert [m][1..] == [];
    }
  }

  /** The chat loop generates nothing but responses and answers. */
  lemma GeneratedPlays(rd: Reading, c: S.Config, generated: seq<T.Message>)
    requires T.Owed(generated).Some? && S.Sound(c, generated)
    ensures AllPlay(DomainOf(rd, generated)) && Spoken(DomainOf(rd, generated)) == T.Responses(generated)
  {
    forall i | 0 <= i < |generated|
      ensures Plays(MessageOf(rd, generated[i])) && !generated[i].Request?
    {
      if !generated[i].Response? {
        T.EveryAnswerPlaced(generated, i);
      }
    }
    ResponsesAreSpoken(rd, generated);
  }

  // ----- The returned history in two parts -----

  lemma NoResultFirst(rd: Reading, c: S.Config, generated: seq<T.Message>)
    requires T.Owed(generated).Some?
    ensures DomainOf(rd, generated) != [] ==> DomainOf(rd, generated)[0].role != Tool
  {
    if generated != [] && !generated[0].Response? {
      T.EveryAnswerPlaced(generated, 0);
    }
  }

  /** What comes back is the request's part, one message for each of its history, and the generated part. */
  lemma ReturnedParts(
    rd: Reading, c: S.Config, messages: seq<HttpMessage>, instruction: string, history: seq<T.Message>, base: nat)
    requires Begins(rd, messages, instruction, history, base) && T.Owed(history[base..]).Some?
    requires ToHttp(DomainOf(rd, history)).Some?
    ensures ToHttp(DomainOf(rd, history[base..])).Some?
    ensures ToHttp(DomainOf(rd, history)).value == Filled(messages, []) + ToHttp(DomainOf(rd, history[base..])).value
    ensures |Filled(messages, [])| == base - 1
  {
    var h, g := ToDomain(messages, []).value, DomainOf(rd, history[base..]);
    WholeHistory(rd, messages, instruction, history, base, g);
    NextRequest.HiddenInstruction(instruction, h + g);
    NoResultFirst(rd, c, history[base..]);
    ToHttpConcat(h, g);
    RoundTrip(messages, []);
  }

  /** A silent part and a text after it. */
  lemma TextAfterSilence(g: seq<HttpMessage>, turns: nat, text: string)
    requires Silent(g, turns)
    ensures var all := g + [HttpMessage(Assistant, Text(text), None)];
      && EndsWithItsOnlyText(all) && (forall i | 0 <= i < |all| :: IsGenerated(all[i]))
      && Turns(all, |g|) == turns && Turns(all, |all|) == turns + 1
  {
    TurnsPrefix(g, [HttpMessage(Assistant, Text(text), None)], |g|);
  }

  lemma CompletedDomain(rd: Reading, c: S.Config, history: seq<T.Message>, base: nat) returns (before: seq<T.Message>)
    requires O.IsComplete(c, history, base)
    ensures T.Owed(before) == Some([]) && S.Sound(c, before) && T.Responses(before) + 1 == T.Responses(history[base..])
    ensures DomainOf(rd, history[base..]) == DomainOf(rd, before) + [Plain(Assistant, FinalContent(rd, history))]
  {
    var generated := history[base..];
    var last := |generated| - 1;
    before := generated[..last];
    assert CallsOf(rd, generated[last].calls) == [];
  }

  /** A completed chat's part: silent turns, and one text of which the turn is the last response's. */
  lemma CompletedPart(rd: Reading, c: S.Config, history: seq<T.Message>, base: nat)
    requires O.IsComplete(c, history, base) && ToHttp(DomainOf(rd, history[base..])).Some?
    ensures FinalContent(rd, history).Str?
    ensures var g := ToHttp(DomainOf(rd, history[base..])).value;
      && EndsWithItsOnlyText(g) && g[|g| - 1].content.text == FinalContent(rd, history).text
      && Turns(g, |g| - 1) == T.Responses(history[base..]) - 1 && Turns(g, |g|) == T.Responses(history[base..])
      && forall i | 0 <= i < |g| :: IsGenerated(g[i])
  {
    var before := CompletedDomain(rd, c, history, base);
    var m := Plain(Assistant, FinalContent(rd, history));
    ToHttpConcat(DomainOf(rd, before), [m]);
    AloneToHttp(m);
    GeneratedPlays(rd, c, before);
    PlayedToHttp(DomainOf(rd, before));
    TextAfterSilence(ToHttp(DomainOf(rd, before)).value, T.Responses(before), m.content.text);
  }

  // ----- The chat -----

  datatype StreamError = BadRequest | Chat(error: O.ChatError) | Unrepresentable | Contradiction

  /** The history that was returned, the live deltas, and the deltas sent after them. */
  datatype Stream = Stream(completed: bool, returned: seq<HttpMessage>, live: seq<Live>, late: seq<string>)

  function Ask(rd: Reading, h: seq<DomainMessage>): (r: seq<T.Asked>)
    ensures |r| == |h| && forall i | 0 <= i < |r| :: r[i] == (rd.ask)(h[i])
  {
    seq(|h|, i requires 0 <= i < |h| => (rd.ask)(h[i]))
  }

  lemma RequestedBegins(
    rd: Reading, c: S.Config, messages: seq<HttpMessage>, instruction: string, history: seq<T.Message>)
    requires Faithful(rd, c) && ToDomain(messages, []).Some?
    requires O.Requested((rd.ask)(Plain(System, Str(instruction))), Ask(rd, ToDomain(messages, []).value)) <= history
    ensures Begins(rd, messages, instruction, history, |ToDomain(messages, []).value| + 1)
  {
    var h := ToDomain(messages, []).value;
    var system := Plain(System, Str(instruction));
    var requested := O.Requested((rd.ask)(system), Ask(rd, h));
    assert history[..|h| + 1] == requested;
    assert DomainOf(rd, requested) == [system] + h;
  }

  /** The live deltas of the last turn and the late ones together are the text the history ends with. */
  predicate Delivered(g: seq<HttpMessage>, live: seq<Live>, late: seq<string>) {
    && EndsWithItsOnlyText(g)
    && TextOf(live, Turns(g, |g| - 1)) + Concat(late) == g[|g| - 1].content.text
  }

  /** What the reconciliation of the generated part leads to. */
  ghost predicate Reconciled(g: seq<HttpMessage>, completed: bool, streamed: Streamed, live: seq<Live>) {
    && Reconcilable(g, streamed)
    && var late := Suffixes(g, |g|, streamed);
       if completed then Delivered(g, live, late) else late == []
  }

  /** Whatever the queue refused, a completed chat is reconciled, without a gap and with nothing sent twice. */
  lemma CompletedIsDelivered(rd: Reading, c: S.Config, history: seq<T.Message>, base: nat, sink: Sink)
    requires Faithful(rd, c) && O.IsComplete(c, history, base) && O.HasSpoken(c, sink, history, base)
    requires ToHttp(DomainOf(rd, history[base..])).Some?
    ensures Reconciled(ToHttp(DomainOf(rd, history[base..])).value, true, sink.streamed, sink.queue)
  {
    CompletedPart(rd, c, history, base);
    FinalTextIsDelivered(
      ToHttp(DomainOf(rd, history[base..])).value, sink.streamed, sink.queue, sink.emitted);
  }

  /** A paused chat has returned no text, so nothing is missing. */
  lemma PausedIsSilent(
    rd: Reading, c: S.Config, history: seq<T.Message>, base: nat, streamed: Streamed, live: seq<Live>)
    requires base <= |history| && T.Owed(history[base..]).Some? && S.Sound(c, history[base..])
    requires forall t | t in streamed :: t < T.Responses(history[base..])
    requires ToHttp(DomainOf(rd, history[base..])).Some?
    ensures Reconciled(ToHttp(DomainOf(rd, history[base..])).value, false, streamed, live)
  {
    var g := ToHttp(DomainOf(rd, history[base..])).value;
    GeneratedPlays(rd, c, history[base..]);
    PlayedToHttp(DomainOf(rd, history[base..]));
    NoSuffixes(g, |g|, streamed);
  }

  /** The end of a streamed chat: the history for the client, and the deltas it has not got yet. */
  method Finish(
    rd: Reading, history: seq<T.Message>, completed: bool, inputCount: nat, sink: Sink, ghost c: S.Config,
    ghost messages: seq<HttpMessage>, ghost instruction: string)
    returns (r: Result<Stream, StreamError>)
    requires Begins(rd, messages, instruction, history, inputCount + 1)
    requires T.Owed(history[inputCount + 1..]).Some?
    requires ToHttp(DomainOf(rd, history[inputCount + 1..])).Some? ==>
      Reconciled(ToHttp(DomainOf(rd, history[inputCount + 1..])).value, completed, sink.streamed, sink.queue)
    ensures r.Ok? <==> ToHttp(DomainOf(rd, history)).Some?
    ensures r.Err? ==> r.error == Unrepresentable
    ensures r.Ok? ==> Settled(r.value, messages) && r.value.completed == completed
  {
    var returned := DomainHistoryToHttp(DomainOf(rd, history));
    if returned.None? {
      return Err(Unrepresentable);
    }
    ReturnedParts(rd, c, messages, instruction, history, inputCount + 1);
    var late := ResponseEvents(returned.value, inputCount, sink.streamed);
    assert returned.value[inputCount..] == ToHttp(DomainOf(rd, history[inputCount + 1..])).value;
    if late.None? {
      return Err(Contradiction);
    }
    return Ok(Stream(completed, returned.value, sink.queue, late.value));
  }

  /** What the client of a streamed chat has got in the end. */
  predicate Settled(s: Stream, messages: seq<HttpMessage>) {
    && Filled(messages, []) <= s.returned
    && if s.completed then Delivered(s.returned[|Filled(messages, [])|..], s.live, s.late) else s.late == []
  }

  /**
   A streamed chat. Its reconciliation never fails, for every pattern of refused deltas. When the chat
   completes, the live deltas of its last turn followed by the late ones are exactly the text it returns;
   when it pauses, nothing is sent late.
   */
  method StreamChat(
    orchestrator: O.ChatOrchestrator, rd: Reading, me: S.Execution, chat: ChatId, instruction: string,
    messages: seq<HttpMessage>)
    returns (r: Result<Stream, StreamError>)
    requires orchestrator.Valid() && Faithful(rd, orchestrator.config)
    modifies orchestrator
    ensures orchestrator.Valid()
    ensures r != Err(Contradiction)
    ensures r == Err(BadRequest) <==> ToDomain(messages, []).None? || ToDomain(messages, []) == Some([])
    ensures r.Ok? ==> Settled(r.value, messages)
  {
    var h := RequestToDomain(messages);
    if h.None? {
      return Err(BadRequest);
    }
    var sink := new Sink();
    var response, _ := orchestrator.RunNewChat(
      me, chat, (rd.ask)(Plain(System, Str(instruction))), Ask(rd, h.value), sink);
    if response.Err? {
      return Err(Chat(response.error));
    }
    RequestedBegins(rd, orchestrator.config, messages, instruction, response.value.history);
    r := Conclude(
      rd, response.value, |h.value|, sink, chat, orchestrator.config, orchestrator.shared, messages, instruction);
  }

  /** The end of a chat that the loop has answered. */
  method Conclude(
    rd: Reading, response: O.ChatResponse, inputCount: nat, sink: Sink, ghost chat: ChatId, ghost c: S.Config,
    ghost s: S.Shared, ghost messages: seq<HttpMessage>, ghost instruction: string)
    returns (r: Result<Stream, StreamError>)
    requires Faithful(rd, c) && S.SharedOk(c, s) && O.Ends(c, s, chat, inputCount + 1, sink, response)
    requires Begins(rd, messages, instruction, response.history, inputCount + 1)
    ensures r.Err? ==> r.error == Unrepresentable
    ensures r.Ok? ==> Settled(r.value, messages) && r.value.completed == response.Completed?
  {
    EndIsReconciled(rd, c, s, chat, inputCount + 1, sink, response);
    r := Finish(rd, response.history, response.Completed?, inputCount, sink, c, messages, instruction);
  }

  lemma EndIsReconciled(
    rd: Reading, c: S.Config, s: S.Shared, chat: ChatId, base: nat, sink: Sink, response: O.ChatResponse)
    requires Faithful(rd, c) && S.SharedOk(c, s) && O.Ends(c, s, chat, base, sink, response)
    ensures base <= |response.history| && T.Owed(response.history[base..]).Some?
    ensures ToHttp(DomainOf(rd, response.history[base..])).Some? ==>
      Reconciled(ToHttp(DomainOf(rd, response.history[base..])).value, response.Completed?, sink.streamed, sink.queue)
  {
    if response.ApprovalRequired? {
      O.StoredIsSound(c, s, response.key, chat, response.history, base);
    }
    if ToHttp(DomainOf(rd, response.history[base..])).Some? {
      if response.Completed? {
        CompletedIsDelivered(rd, c, response.history, base, sink);
      } else {
        PausedIsSilent(rd, c, response.history, base, sink.streamed, sink.queue);
      }
    }
  }
}
