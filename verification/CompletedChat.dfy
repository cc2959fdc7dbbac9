/**
 From the chat loop to the next request: the generated part of a completed chat, read as a domain
 history, is a sequence of answered turns and a final text, and the client may send it back.
 */
module CompletedChat {
  import opened Base
  import T = Transcript
  import S = SharedState
  import O = Orchestrator
  import opened History
  import opened NextRequest

  /** How the chat loop's messages, values, ids and names are written down, and ids read again. */
  datatype Reading = Reading(
    ask: DomainMessage -> T.Asked, asked: T.Asked -> DomainMessage, value: T.Value -> Json,
    id: T.CallId -> string, idOf: string -> T.CallId, name: T.ToolName -> string)

  /**
   The request's messages stay as they are, an id can be read again, a text is a string, and the check of
   a response's calls refuses blank names.
   */
  ghost predicate Faithful(rd: Reading, c: S.Config) {
    && (forall d :: (rd.asked)((rd.ask)(d)) == d)
    && (forall x :: (rd.idOf)((rd.id)(x)) == x)
    && (forall v :: (c.textOf)(v) == if (rd.value)(v).Str? then Some((rd.value)(v).text) else None)
    && forall call: T.ToolCall | (c.acceptsCall)(call) :: !Blank((rd.name)(call.name))
  }

  function CallOf(rd: Reading, call: T.ToolCall): Call {
    Call((rd.id)(call.id), (rd.name)(call.name), (rd.value)(call.args))
  }

  function CallsOf(rd: Reading, calls: seq<T.ToolCall>): (r: seq<Call>)
    ensures |r| == |calls| && forall i | 0 <= i < |r| :: r[i] == CallOf(rd, calls[i])
  {
    seq(|calls|, i requires 0 <= i < |calls| => CallOf(rd, calls[i]))
  }

  function ResultOf(rd: Reading, r: T.ToolResult): DomainResult {
    DomainResult((rd.id)(r.id), (rd.name)(r.name), (rd.value)(r.content), r.isError)
  }

  function MessageOf(rd: Reading, m: T.Message): DomainMessage {
    match m
    case Request(asked) => (rd.asked)(asked)
    case Response(content, calls) => DomainMessage(Assistant, (rd.value)(content), CallsOf(rd, calls), [], false)
    case Answer(result) => DomainMessage(Tool, (rd.value)(result.content), [], [ResultOf(rd, result)], false)
  }

  function DomainOf(rd: Reading, messages: seq<T.Message>): (r: seq<DomainMessage>)
    ensures |r| == |messages| && forall i | 0 <= i < |r| :: r[i] == MessageOf(rd, messages[i])
  {
    seq(|messages|, i requires 0 <= i < |messages| => MessageOf(rd, messages[i]))
  }

  function AllTurns(turns: seq<Turn>): seq<DomainMessage> {
    if turns == [] then [] else TurnMessages(turns[0]) + AllTurns(turns[1..])
  }

  lemma {:induction false} AllTurnsAppend(turns: seq<Turn>, t: Turn)
    ensures AllTurns(turns + [t]) == AllTurns(turns) + TurnMessages(t)
    decreases turns
  {
    if turns == [] {
      assert turns + [t] == [t] && [t][1..] == [];
      assert AllTurns([t]) == TurnMessages(t) + [];
    } else {
      assert (turns + [t])[1..] == turns[1..] + [t];
      AllTurnsAppend(turns[1..], t);
      Assoc(TurnMessages(turns[0]), AllTurns(turns[1..]), TurnMessages(t));
    }
  }

  lemma {:induction false} GeneratedIsTurns(turns: seq<Turn>, text: string)
    ensures Generated(turns, text) == AllTurns(turns) + [Plain(Assistant, Str(text))]
    decreases turns
  {
    if turns != [] {
      GeneratedIsTurns(turns[1..], text);
      Assoc(TurnMessages(turns[0]), AllTurns(turns[1..]), [Plain(Assistant, Str(text))]);
    }
  }

  lemma {:induction false} AnswerMessagesAt(answers: seq<DomainResult>, k: nat)
    requires k < |answers|
    ensures |AnswerMessages(answers)| == |answers|
    ensures AnswerMessages(answers)[k] == DomainMessage(Tool, answers[k].content, [], [answers[k]], false)
    decreases answers
  {
    if |answers| > 1 {
      AnswerMessagesAt(answers[1..], if k > 0 then k - 1 else 0);
    }
  }

  /** One response and the messages that answer its calls, read as a turn. */
  function TurnOf(rd: Reading, response: T.Message, answers: seq<T.Message>): Turn
    requires response.Response? && forall i | 0 <= i < |answers| :: answers[i].Answer?
  {
    Turn((rd.value)(response.content), CallsOf(rd, response.calls),
         seq(|answers|, i requires 0 <= i < |answers| => ResultOf(rd, answers[i].result)))
  }

  lemma TurnReads(rd: Reading, c: S.Config, response: T.Message, answers: seq<T.Message>)
    requires Faithful(rd, c) && response.Response? && S.ValidList(c, response.calls) && |answers| == |response.calls|
    requires forall i | 0 <= i < |answers| :: answers[i].Answer?
    requires forall i | 0 <= i < |answers| :: T.Answers(answers[i], response.calls[i])
    ensures var t := TurnOf(rd, response, answers);
      Answered(t) && WellCalled(t) && TurnMessages(t) == DomainOf(rd, [response] + answers)
  {
    var t := TurnOf(rd, response, answers);
    forall i | 0 <= i < |answers|
      ensures |AnswerMessages(t.answers)| == |answers|
      ensures AnswerMessages(t.answers)[i] == MessageOf(rd, answers[i])
    {
      AnswerMessagesAt(t.answers, i);
    }
    assert |AnswerMessages(t.answers)| == |answers| by {
      assert |answers| > 0;
      AnswerMessagesAt(t.answers, 0);
    }
    assert TurnMessages(t) == DomainOf(rd, [response] + answers);
  }

  /** The last response of a history that owes nothing, the answers after it and what came before. */
  lemma SplitLast(c: S.Config, generated: seq<T.Message>) returns (i: nat)
    requires generated != [] && T.Owed(generated) == Some([]) && S.Sound(c, generated)
    ensures i < |generated| && generated[i].Response? && S.ValidList(c, generated[i].calls)
    ensures T.Owed(generated[..i]) == Some([]) && S.Sound(c, generated[..i])
    ensures var answers := generated[i + 1..];
      && |answers| == |generated[i].calls|
      && (forall k | 0 <= k < |answers| :: answers[k].Answer?)
      && (forall k | 0 <= k < |answers| :: T.Answers(answers[k], generated[i].calls[k]))
  {
    i := T.OwedIsATail(generated);
    T.OwedPrefix(generated, i + 1);
    assert generated[..i + 1][..i] == generated[..i];
    var answers := generated[i + 1..];
    forall k | 0 <= k < |answers| ensures T.Answers(answers[k], generated[i].calls[k]) {
      assert answers[k] == generated[i + 1 + k];
    }
  }

  lemma DomainOfConcat(rd: Reading, xs: seq<T.Message>, ys: seq<T.Message>)
    ensures DomainOf(rd, xs + ys) == DomainOf(rd, xs) + DomainOf(rd, ys)
  {
  }

  predicate AllAnswered(turns: seq<Turn>) {
    forall i | 0 <= i < |turns| :: Answered(turns[i]) && WellCalled(turns[i])
  }

  lemma OneMoreTurn(
    rd: Reading, c: S.Config, before: seq<T.Message>, response: T.Message, answers: seq<T.Message>, front: seq<Turn>)
    returns (turns: seq<Turn>)
    requires Faithful(rd, c) && response.Response? && S.ValidList(c, response.calls) && |answers| == |response.calls|
    requires forall i | 0 <= i < |answers| :: answers[i].Answer?
    requires forall i | 0 <= i < |answers| :: T.Answers(answers[i], response.calls[i])
    requires AllAnswered(front) && DomainOf(rd, before) == AllTurns(front)
    ensures AllAnswered(turns) && DomainOf(rd, before + ([response] + answers)) == AllTurns(turns)
    ensures |turns| == |front| + 1
  {
    var t := TurnOf(rd, response, answers);
    turns := front + [t];
    TurnReads(rd, c, response, answers);
    AllTurnsAppend(front, t);
    DomainOfConcat(rd, before, [response] + answers);
  }

  lemma {:induction false} ResponsesOfTurn(generated: seq<T.Message>, i: nat, n: nat)
    requires i < n <= |generated| && generated[i].Response?
    requires forall k | i < k < n :: !generated[k].Response?
    ensures T.Responses(generated[..n]) == T.Responses(generated[..i]) + 1
    ensures generated[..|generated|] == generated
  {
    assert generated[..n][..n - 1] == generated[..n - 1];
    if i < n - 1 {
      ResponsesOfTurn(generated, i, n - 1);
    }
  }

  /** A sound history that owes nothing is a sequence of answered turns. */
  lemma {:induction false} ReadTurns(rd: Reading, c: S.Config, generated: seq<T.Message>) returns (turns: seq<Turn>)
    requires Faithful(rd, c) && T.Owed(generated) == Some([]) && S.Sound(c, generated)
    ensures AllAnswered(turns) && DomainOf(rd, generated) == AllTurns(turns) && |turns| == T.Responses(generated)
    decreases |generated|
  {
    if generated == [] {
      turns := [];
    } else {
      var i := SplitLast(c, generated);
      SplitAt(generated, i);
      ResponsesOfTurn(generated, i, |generated|);
      var front := ReadTurns(rd, c, generated[..i]);
      turns := OneMoreTurn(rd, c, generated[..i], generated[i], generated[i + 1..], front);
    }
  }

  function FinalContent(rd: Reading, history: seq<T.Message>): Json
    requires history != [] && history[|history| - 1].Response?
  {
    (rd.value)(history[|history| - 1].content)
  }

  /** What a completed chat generated is a sequence of answered turns and a final content. */
  lemma CompletedReads(rd: Reading, c: S.Config, history: seq<T.Message>, base: nat) returns (turns: seq<Turn>)
    requires Faithful(rd, c) && O.IsComplete(c, history, base)
    ensures AllAnswered(turns) && |turns| + 1 == T.Responses(history[base..])
    ensures DomainOf(rd, history[base..]) == AllTurns(turns) + [Plain(Assistant, FinalContent(rd, history))]
  {
    var generated := history[base..];
    var last := |generated| - 1;
    var before := generated[..last];
    assert generated == before + [generated[last]] && T.Owed(before) == Some([]);
    turns := ReadTurns(rd, c, before);
    assert MessageOf(rd, generated[last]) == Plain(Assistant, FinalContent(rd, history)) by {
      assert CallsOf(rd, generated[last].calls) == [];
    }
    assert DomainOf(rd, generated) == DomainOf(rd, before) + [MessageOf(rd, generated[last])];
  }

  /** The history begins with the hidden instruction and the request, as it was converted. */
  predicate Begins(rd: Reading, messages: seq<HttpMessage>, instruction: string, history: seq<T.Message>, base: nat) {
    && ToDomain(messages, []).Some? && base == |ToDomain(messages, []).value| + 1 <= |history|
    && DomainOf(rd, history[..base]) == [Plain(System, Str(instruction))] + ToDomain(messages, []).value
  }

  lemma NoTextNoReturn(h: seq<DomainMessage>, final: Json)
    ensures !final.Str? ==> ToHttp(h + [Plain(Assistant, final)]).None?
  {
    ToHttpConcat(h, [Plain(Assistant, final)]);
    AloneToHttp(Plain(Assistant, final));
  }

  /** The history as the client would see it, in the three parts it was made of. */
  lemma WholeHistory(
    rd: Reading, messages: seq<HttpMessage>, instruction: string, history: seq<T.Message>, base: nat,
    generated: seq<DomainMessage>)
    requires Begins(rd, messages, instruction, history, base) && DomainOf(rd, history[base..]) == generated
    ensures DomainOf(rd, history) ==
      [Plain(System, Str(instruction))] + (ToDomain(messages, []).value + generated)
  {
    assert history == history[..base] + history[base..];
    DomainOfConcat(rd, history[..base], history[base..]);
    Assoc([Plain(System, Str(instruction))], ToDomain(messages, []).value, generated);
  }

  /**
   The whole way round: an accepted request, a completed chat over any pauses and resumes, and the history
   it returns. The client gets its own messages and the generated ones back, or nothing exactly when the
   final content is no text or something must not be shown. The server accepts what it returned as the
   next request exactly when no generated call id is blank.
   */
  lemma CompletedChatIsNextRequest(
    rd: Reading, c: S.Config, messages: seq<HttpMessage>, instruction: string, history: seq<T.Message>, base: nat)
    returns (turns: seq<Turn>)
    requires Faithful(rd, c) && O.IsComplete(c, history, base) && Begins(rd, messages, instruction, history, base)
    ensures |turns| + 1 == T.Responses(history[base..])
    ensures var final := FinalContent(rd, history);
      ToHttp(DomainOf(rd, history)) ==
        if final.Str? && AllFree(messages) && forall i | 0 <= i < |turns| :: Shown(turns[i])
        then Some(Filled(messages, []) + HttpGenerated(turns, final.text)) else None
    ensures ToHttp(DomainOf(rd, history)).Some? ==>
      var returned := ToHttp(DomainOf(rd, history)).value;
      && (ToDomain(returned, []).Some? <==> forall i | 0 <= i < |turns| :: IdsPresent(turns[i]))
      && ((forall i | 0 <= i < |returned| :: Allowed(returned, i))
          <==> forall i | 0 <= i < |turns| :: IdsPresent(turns[i]))
  {
    turns := CompletedReads(rd, c, history, base);
    var final := FinalContent(rd, history);
    var h, generated := ToDomain(messages, []).value, AllTurns(turns) + [Plain(Assistant, final)];
    WholeHistory(rd, messages, instruction, history, base, generated);
    if final.Str? {
      GeneratedIsTurns(turns, final.text);
      CompletedHistoryIsReturned(messages, instruction, turns, final.text);
      CompletedHistoryIsAccepted(messages, turns, final.text, Filled(messages, []) + HttpGenerated(turns, final.text));
    } else {
      HiddenInstruction(instruction, h + generated);
      Assoc(h, AllTurns(turns), [Plain(Assistant, final)]);
      NoTextNoReturn(h + AllTurns(turns), final);
    }
  }
}
