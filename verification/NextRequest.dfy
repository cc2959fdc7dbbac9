/**
 A chat's returned history is the client's next request: what a completed chat returns, and when the
 server accepts it again.
 */
module NextRequest {
  import opened Base
  import opened History

  // ----- Validating a request's messages -----

  function CallIds(calls: seq<Call>): set<string> { set i | 0 <= i < |calls| :: calls[i].id }

  function ResultIds(results: seq<HttpResult>): set<string> { set i | 0 <= i < |results| :: results[i].id }

  predicate ValidToolCallHistory(calls: seq<Call>, next: Option<HttpMessage>) {
    && calls != [] && next.Some? && next.value.role == Tool && next.value.content.Results?
    && var results := next.value.content.results;
       && results != []
       && |CallIds(calls)| == |calls| && |ResultIds(results)| == |results|
       && (forall i | 0 <= i < |calls| :: !Blank(calls[i].id) && !Blank(calls[i].name))
       && (forall i | 0 <= i < |results| :: !Blank(results[i].id))
       && CallIds(calls) == ResultIds(results)
  }

  predicate Combines(role: Role, content: Content) {
    match role
    case User => content.Text? || content.Picture?
    case Assistant => content.Text? || content.Calls?
    case Tool => content.Results?
    case System => false
  }

  function At(messages: seq<HttpMessage>, i: nat): Option<HttpMessage> {
    if i < |messages| then Some(messages[i]) else None
  }

  predicate Allowed(messages: seq<HttpMessage>, i: nat)
    requires i < |messages|
  {
    var m := messages[i];
    && Combines(m.role, m.content)
    && (m.content.Calls? ==> ValidToolCallHistory(m.content.calls, At(messages, i + 1)))
    && (m.content.Results? ==> i > 0 && messages[i - 1].content.Calls? && m.content.results != [])
  }

  method ValidateChatMessages(messages: seq<HttpMessage>) returns (ok: bool)
    ensures ok <==> forall i | 0 <= i < |messages| :: Allowed(messages, i)
  {
    var index := 0;
    while index < |messages|
      invariant 0 <= index <= |messages|
      invariant forall i | 0 <= i < index :: Allowed(messages, i)
    {
      var m := messages[index];
      assert messages[index] == m;
      if !Combines(m.role, m.content) {
        assert !Allowed(messages, index);
        return false;
      }
      if m.content.Calls? && !ValidToolCallHistory(m.content.calls, At(messages, index + 1)) {
        assert !Allowed(messages, index);
        return false;
      }
      if m.content.Results? {
        var follows := index > 0 && messages[index - 1].content.Calls?;
        if !follows || m.content.results == [] {
          assert !Allowed(messages, index);
          return false;
        }
      }
      index := index + 1;
    }
    return true;
  }

  // ----- Whatever converts is valid -----

  lemma CallIdsOfAll(calls: seq<Call>)
    requires calls != []
    ensures CallIds(calls) == CallIds(calls[..|calls| - 1]) + {calls[|calls| - 1].id}
  {
    var before := calls[..|calls| - 1];
    assert forall i | 0 <= i < |before| :: before[i] == calls[i];
  }

  lemma {:induction false} DistinctCount(calls: seq<Call>)
    requires DistinctIds(calls)
    ensures |CallIds(calls)| == |calls|
    decreases |calls|
  {
    if calls != [] {
      var before, last := calls[..|calls| - 1], calls[|calls| - 1];
      DistinctCount(before);
      forall i | 0 <= i < |before| ensures before[i].id != last.id {
        assert before[i] == calls[i];
      }
      CallIdsOfAll(calls);
    }
  }

  lemma ResultIdsOfAll(results: seq<HttpResult>)
    requires results != []
    ensures ResultIds(results) == ResultIds(results[..|results| - 1]) + {results[|results| - 1].id}
  {
    var before := results[..|results| - 1];
    assert forall i | 0 <= i < |before| :: before[i] == results[i];
  }

  lemma {:induction false} DistinctResultCount(results: seq<HttpResult>)
    requires forall i, j | 0 <= i < j < |results| :: results[i].id != results[j].id
    ensures |ResultIds(results)| == |results|
    decreases |results|
  {
    if results != [] {
      var before, last := results[..|results| - 1], results[|results| - 1];
      DistinctResultCount(before);
      forall i | 0 <= i < |before| ensures before[i].id != last.id {
        assert before[i] == results[i];
      }
      ResultIdsOfAll(results);
    }
  }

  lemma SameSize<T>(xs: set<T>, ys: set<T>)
    requires xs <= ys && |xs| == |ys|
    ensures xs == ys
  {
    assert ys == xs + (ys - xs);
  }

  lemma {:induction false} MatchedIsValid(calls: seq<Call>, m: HttpMessage)
    requires ValidCalls(calls) && m.role == Tool && m.content.Results? && Matches(calls, m.content.results)
    ensures ValidToolCallHistory(calls, Some(m))
  {
    var results := m.content.results;
    DistinctCount(calls);
    DistinctResultCount(results);
    forall i | 0 <= i < |results| ensures results[i].id in CallIds(calls) && !Blank(results[i].id) {
      NameOfSome(calls, results[i].id);
    }
    SameSize(ResultIds(results), CallIds(calls));
  }

  function PendingAt(messages: seq<HttpMessage>, k: nat): seq<Call>
    requires k <= |messages|
  {
    if k > 0 && messages[k - 1].content.Calls? then messages[k - 1].content.calls else []
  }

  lemma {:induction false} ConvertedIsValid(messages: seq<HttpMessage>, k: nat)
    requires k <= |messages| && ToDomain(messages[k..], PendingAt(messages, k)).Some?
    requires forall i | 0 <= i < |messages| :: messages[i].role != System
    ensures forall i | k <= i < |messages| :: Allowed(messages, i)
    decreases |messages| - k
  {
    if k < |messages| {
      var m, rest := messages[k], messages[k..];
      assert rest[0] == m && rest[1..] == messages[k + 1..];
      var (d, pending) := MessageToDomain(m, PendingAt(messages, k)).value;
      assert pending == PendingAt(messages, k + 1);
      ConvertedIsValid(messages, k + 1);
      if m.content.Calls? {
        NextAnswers(messages, k + 1, m.content.calls);
      }
    }
  }

  /** Pending calls are answered by the very next message. */
  lemma {:induction false} NextAnswers(messages: seq<HttpMessage>, k: nat, calls: seq<Call>)
    requires k <= |messages| && ValidCalls(calls) && ToDomain(messages[k..], calls).Some?
    requires forall i | 0 <= i < |messages| :: messages[i].role != System
    ensures ValidToolCallHistory(calls, At(messages, k))
  {
    var rest := messages[k..];
    assert rest != [] && rest[0] == messages[k];
    MatchedIsValid(calls, messages[k]);
  }

  // ----- Whatever is valid converts -----

  lemma {:induction false} FewIds(calls: seq<Call>)
    ensures |CallIds(calls)| <= |calls|
    ensures |CallIds(calls)| == |calls| ==> DistinctIds(calls)
    decreases |calls|
  {
    if calls != [] {
      var before, last := calls[..|calls| - 1], calls[|calls| - 1];
      FewIds(before);
      CallIdsOfAll(calls);
      if |CallIds(calls)| == |calls| {
        assert last.id !in CallIds(before);
        forall i, j | 0 <= i < j < |calls| ensures calls[i].id != calls[j].id {
          assert before[i] == calls[i] && (j < |before| ==> before[j] == calls[j]);
          assert before[i].id in CallIds(before);
        }
      }
    }
  }

  lemma {:induction false} FewResultIds(results: seq<HttpResult>)
    ensures |ResultIds(results)| <= |results|
    ensures |ResultIds(results)| == |results| ==>
      forall i, j | 0 <= i < j < |results| :: results[i].id != results[j].id
    decreases |results|
  {
    if results != [] {
      var before, last := results[..|results| - 1], results[|results| - 1];
      FewResultIds(before);
      ResultIdsOfAll(results);
      if |ResultIds(results)| == |results| {
        assert last.id !in ResultIds(before);
        forall i, j | 0 <= i < j < |results| ensures results[i].id != results[j].id {
          assert before[i] == results[i] && (j < |before| ==> before[j] == results[j]);
          assert before[i].id in ResultIds(before);
        }
      }
    }
  }

  /** A name that a result gives is the name of the call it answers. */
  predicate NamesAgree(messages: seq<HttpMessage>, i: nat)
    requires i < |messages|
  {
    i > 0 && messages[i - 1].content.Calls? && messages[i].content.Results? ==>
      forall r | r in messages[i].content.results && r.name.Some? ::
        IsNamed(messages[i - 1].content.calls, r.id, r.name.value)
  }

  /** What the conversion asks of a message where it stands. */
  predicate Converts(messages: seq<HttpMessage>, i: nat)
    requires i < |messages|
  {
    Allowed(messages, i) && messages[i].toolCallId.None? && NamesAgree(messages, i)
  }

  lemma {:induction false} NamedIsUnique(calls: seq<Call>, id: string, name: string)
    requires DistinctIds(calls) && IsNamed(calls, id, name)
    ensures NameOf(calls, id) == Some(name)
  {
    var j :| 0 <= j < |calls| && calls[j].id == id && calls[j].name == name;
    NameOfAt(calls, j);
  }

  lemma {:induction false} ValidIsMatched(calls: seq<Call>, m: HttpMessage)
    requires ValidToolCallHistory(calls, Some(m))
    requires forall r | r in m.content.results && r.name.Some? :: IsNamed(calls, r.id, r.name.value)
    ensures ValidCalls(calls) && Matches(calls, m.content.results)
  {
    var results := m.content.results;
    FewIds(calls);
    FewResultIds(results);
    forall i | 0 <= i < |results|
      ensures NameOf(calls, results[i].id).Some?
      ensures results[i].name.Some? ==> results[i].name == NameOf(calls, results[i].id)
    {
      assert results[i].id in ResultIds(results);
      NameOfSome(calls, results[i].id);
      if results[i].name.Some? {
        NamedIsUnique(calls, results[i].id, results[i].name.value);
      }
    }
  }

  lemma {:induction false} ValidConverts(messages: seq<HttpMessage>, k: nat)
    requires k <= |messages| && forall i | 0 <= i < |messages| :: Converts(messages, i)
    ensures ToDomain(messages[k..], PendingAt(messages, k)).Some?
    decreases |messages| - k
  {
    if k > 0 && messages[k - 1].content.Calls? {
      assert Converts(messages, k - 1);
    }
    if k < |messages| {
      var m, rest := messages[k], messages[k..];
      assert Converts(messages, k) && rest[0] == m && rest[1..] == messages[k + 1..];
      if m.content.Results? {
        assert Converts(messages, k - 1);
        ValidIsMatched(messages[k - 1].content.calls, m);
      }
      if m.content.Calls? {
        assert Converts(messages, k + 1);
        ValidIsMatched(m.content.calls, messages[k + 1]);
      }
      ValidConverts(messages, k + 1);
    }
  }

  lemma {:induction false} ConvertedConverts(messages: seq<HttpMessage>, k: nat)
    requires k <= |messages| && ToDomain(messages[k..], PendingAt(messages, k)).Some?
    requires forall i | 0 <= i < |messages| :: messages[i].role != System
    ensures forall i | k <= i < |messages| :: messages[i].toolCallId.None? && NamesAgree(messages, i)
    decreases |messages| - k
  {
    if k < |messages| {
      var m, rest := messages[k], messages[k..];
      assert rest[0] == m && rest[1..] == messages[k + 1..];
      var (d, pending) := MessageToDomain(m, PendingAt(messages, k)).value;
      assert pending == PendingAt(messages, k + 1);
      ConvertedConverts(messages, k + 1);
      if m.content.Results? {
        forall r | r in m.content.results && r.name.Some? ensures IsNamed(PendingAt(messages, k), r.id, r.name.value) {
          NameOfIs(PendingAt(messages, k), r.id);
        }
      }
    }
  }

  /**
   The two checks of a request agree: a list without system messages converts to a history exactly when it
   passes validation, no message names a call by itself, and the names its results give are their calls'.
   */
  lemma ConvertsIffValid(messages: seq<HttpMessage>)
    requires forall i | 0 <= i < |messages| :: messages[i].role != System
    ensures ToDomain(messages, []).Some? <==> forall i | 0 <= i < |messages| :: Converts(messages, i)
  {
    assert messages[0..] == messages;
    if ToDomain(messages, []).Some? {
      ConvertedIsValid(messages, 0);
      ConvertedConverts(messages, 0);
    }
    if forall i | 0 <= i < |messages| :: Converts(messages, i) {
      ValidConverts(messages, 0);
    }
  }

  // ----- Completed histories -----

  /** One response with calls, and the results that answer them one message each. */
  datatype Turn = Turn(content: Json, calls: seq<Call>, answers: seq<DomainResult>)

  /** What the chat loop guarantees of a turn: every call answered, in order, under its name. */
  predicate Answered(t: Turn) {
    && t.calls != [] && |t.answers| == |t.calls|
    && forall i | 0 <= i < |t.calls| :: t.answers[i].id == t.calls[i].id && t.answers[i].name == t.calls[i].name
  }

  /** What the chat loop checks of a response's calls. */
  predicate WellCalled(t: Turn) {
    DistinctIds(t.calls) && forall i | 0 <= i < |t.calls| :: !Blank(t.calls[i].name)
  }

  /** What the client may see of a turn. */
  predicate Shown(t: Turn) {
    && t.content.Null?
    && (forall i | 0 <= i < |t.calls| :: !HasDirective(t.calls[i].args))
    && forall i | 0 <= i < |t.answers| :: !HasDirective(t.answers[i].content)
  }

  function AnswerMessages(answers: seq<DomainResult>): seq<DomainMessage> {
    if answers == [] then []
    else [DomainMessage(Tool, answers[0].content, [], [answers[0]], false)] + AnswerMessages(answers[1..])
  }

  function TurnMessages(t: Turn): seq<DomainMessage> {
    [DomainMessage(Assistant, t.content, t.calls, [], false)] + AnswerMessages(t.answers)
  }

  function Generated(turns: seq<Turn>, text: string): seq<DomainMessage> {
    if turns == [] then [Plain(Assistant, Str(text))] else TurnMessages(turns[0]) + Generated(turns[1..], text)
  }

  function HttpTurn(t: Turn): seq<HttpMessage> {
    [HttpMessage(Assistant, Calls(t.calls), None), HttpMessage(Tool, Results(ToHttpResults(t.answers)), None)]
  }

  function HttpGenerated(turns: seq<Turn>, text: string): seq<HttpMessage> {
    if turns == [] then [HttpMessage(Assistant, Text(text), None)]
    else HttpTurn(turns[0]) + HttpGenerated(turns[1..], text)
  }

  predicate AnswersShown(answers: seq<DomainResult>) {
    forall i | 0 <= i < |answers| :: !HasDirective(answers[i].content)
  }

  /** The messages that answer a response are one run. */
  lemma {:induction false} AnswersMerge(answers: seq<DomainResult>)
    ensures Run(AnswerMessages(answers)) ==
      if AnswersShown(answers) then Some((ToHttpResults(answers), |answers|)) else None
    ensures |AnswerMessages(answers)| == |answers|
    decreases answers
  {
    if answers != [] {
      var m := DomainMessage(Tool, answers[0].content, [], [answers[0]], false);
      AnswersMerge(answers[1..]);
      assert AnswerMessages(answers)[1..] == AnswerMessages(answers[1..]);
      assert ToHttpResults(answers) == ToHttpResults([answers[0]]) + ToHttpResults(answers[1..]);
      assert m.results[0] == answers[0];
      assert answers == [answers[0]] + answers[1..];
    }
  }

  lemma {:induction false} AnswersToHttp(answers: seq<DomainResult>)
    requires answers != []
    ensures ToHttp(AnswerMessages(answers)) ==
      if AnswersShown(answers) then Some([HttpMessage(Tool, Results(ToHttpResults(answers)), None)]) else None
  {
    var tools := AnswerMessages(answers);
    AnswersMerge(answers);
    assert tools[|answers|..] == [] && tools[0].role == Tool;
    var merged := HttpMessage(Tool, Results(ToHttpResults(answers)), None);
    assert [merged] + [] == [merged];
  }

  lemma {:induction false} TurnToHttp(t: Turn)
    requires Answered(t)
    ensures ToHttp(TurnMessages(t)) == if Shown(t) then Some(HttpTurn(t)) else None
  {
    var tools := AnswerMessages(t.answers);
    AnswersToHttp(t.answers);
    var head := DomainMessage(Assistant, t.content, t.calls, [], false);
    HeadToHttp(head, tools);
    assert MessageToHttp(head) ==
      if t.content.Null? && forall i | 0 <= i < |t.calls| :: !HasDirective(t.calls[i].args)
      then Some(Some(HttpTurn(t)[0])) else None;
    assert HttpTurn(t) == [HttpTurn(t)[0]] + [HttpTurn(t)[1]];
  }

  /** What a completed chat returns for the part the server generated; nothing if some of it must not be shown. */
  lemma {:induction false} GeneratedToHttp(turns: seq<Turn>, text: string)
    requires forall i | 0 <= i < |turns| :: Answered(turns[i])
    ensures ToHttp(Generated(turns, text)) ==
      if forall i | 0 <= i < |turns| :: Shown(turns[i]) then Some(HttpGenerated(turns, text)) else None
    ensures Generated(turns, text)[0].role == Assistant
    decreases turns
  {
    if turns == [] {
      AloneToHttp(Plain(Assistant, Str(text)));
    } else {
      assert turns == [turns[0]] + turns[1..];
      GeneratedToHttp(turns[1..], text);
      TurnToHttp(turns[0]);
      ToHttpConcat(TurnMessages(turns[0]), Generated(turns[1..], text));
    }
  }

  lemma {:induction false} ToDomainConcat(xs: seq<HttpMessage>, ys: seq<HttpMessage>, pending: seq<Call>)
    requires ToDomain(xs, pending).Some?
    ensures ToDomain(xs + ys, pending) == Prepend(ToDomain(xs, pending).value, ToDomain(ys, []))
    decreases xs
  {
    if xs == [] {
      assert xs + ys == ys;
    } else {
      assert (xs + ys)[1..] == xs[1..] + ys;
      if xs[0].role == System {
        ToDomainConcat(xs[1..], ys, pending);
      } else {
        var (d, pending') := MessageToDomain(xs[0], pending).value;
        ToDomainConcat(xs[1..], ys, pending');
        PrependTwice([d], ToDomain(xs[1..], pending').value, ToDomain(ys, []));
      }
    }
  }

  lemma {:induction false} NameOfAt(calls: seq<Call>, i: nat)
    requires DistinctIds(calls) && i < |calls|
    ensures NameOf(calls, calls[i].id) == Some(calls[i].name)
    decreases calls
  {
    if i > 0 {
      NameOfAt(calls[1..], i - 1);
    }
  }

  predicate IdsPresent(t: Turn) { forall i | 0 <= i < |t.calls| :: !Blank(t.calls[i].id) }

  lemma {:induction false} AnswersMatch(t: Turn)
    requires Answered(t) && WellCalled(t)
    ensures Matches(t.calls, ToHttpResults(t.answers))
  {
    forall i | 0 <= i < |t.calls| ensures NameOf(t.calls, t.answers[i].id) == Some(t.answers[i].name) {
      NameOfAt(t.calls, i);
    }
  }

  lemma {:induction false} TurnToDomain(t: Turn, rest: seq<HttpMessage>)
    requires Answered(t) && WellCalled(t)
    ensures ToDomain(HttpTurn(t) + rest, []).Some? <==> IdsPresent(t) && ToDomain(rest, []).Some?
  {
    var all := HttpTurn(t) + rest;
    AnswersMatch(t);
    assert all[1..] == [HttpTurn(t)[1]] + rest && all[1..][1..] == rest;
  }

  lemma {:induction false} GeneratedToDomain(turns: seq<Turn>, text: string)
    requires forall i | 0 <= i < |turns| :: Answered(turns[i]) && WellCalled(turns[i])
    ensures ToDomain(HttpGenerated(turns, text), []).Some? <==> forall i | 0 <= i < |turns| :: IdsPresent(turns[i])
    decreases turns
  {
    if turns == [] {
      assert HttpGenerated(turns, text)[1..] == [];
    } else {
      GeneratedToDomain(turns[1..], text);
      TurnToDomain(turns[0], HttpGenerated(turns[1..], text));
      assert turns == [turns[0]] + turns[1..];
    }
  }

  /** Generated messages, and messages that came back, are never system messages. */
  lemma {:induction false} NoSystem(messages: seq<HttpMessage>, pending: seq<Call>, turns: seq<Turn>, text: string)
    ensures forall i | 0 <= i < |Filled(messages, pending)| :: Filled(messages, pending)[i].role != System
    ensures forall i | 0 <= i < |HttpGenerated(turns, text)| :: HttpGenerated(turns, text)[i].role != System
    decreases |messages| + |turns|
  {
    if messages != [] {
      NoSystem(messages[1..], pending, turns, text);
      if messages[0].role != System {
        NoSystem(messages[1..], if messages[0].content.Calls? then messages[0].content.calls else [], turns, text);
      }
    } else if turns != [] {
      NoSystem(messages, pending, turns[1..], text);
    }
  }

  /**
   A completed chat returns the request's messages with the names filled in, followed by what the server
   generated; the system instruction stays hidden, and the request's part is as long as it was. It
   returns nothing exactly when a part of it holds an execution directive or a turn has text beside calls.
   */
  lemma {:induction false} CompletedHistoryIsReturned(
    messages: seq<HttpMessage>, instruction: string, turns: seq<Turn>, text: string)
    requires ToDomain(messages, []).Some?
    requires forall i | 0 <= i < |turns| :: Answered(turns[i])
    ensures ToHttp([Plain(System, Str(instruction))] + (ToDomain(messages, []).value + Generated(turns, text))) ==
      if AllFree(messages) && forall i | 0 <= i < |turns| :: Shown(turns[i])
      then Some(Filled(messages, []) + HttpGenerated(turns, text)) else None
    ensures |Filled(messages, [])| == |ToDomain(messages, []).value|
  {
    var h, g := ToDomain(messages, []).value, Generated(turns, text);
    RoundTrip(messages, []);
    GeneratedToHttp(turns, text);
    ToHttpConcat(h, g);
    HiddenInstruction(instruction, h + g);
  }

  /**
   The next request may consist of exactly that: it converts to a history, and it passes validation, if
   and only if none of the generated call ids is blank.
   */
  lemma {:induction false} CompletedHistoryIsAccepted(
    messages: seq<HttpMessage>, turns: seq<Turn>, text: string, returned: seq<HttpMessage>)
    requires ToDomain(messages, []).Some? && returned == Filled(messages, []) + HttpGenerated(turns, text)
    requires forall i | 0 <= i < |turns| :: Answered(turns[i]) && WellCalled(turns[i])
    ensures ToDomain(returned, []).Some? <==> forall i | 0 <= i < |turns| :: IdsPresent(turns[i])
    ensures (forall i | 0 <= i < |returned| :: Allowed(returned, i))
      <==> forall i | 0 <= i < |turns| :: IdsPresent(turns[i])
  {
    var front, back := Filled(messages, []), HttpGenerated(turns, text);
    Idempotent(messages, []);
    ToDomainConcat(front, back, []);
    GeneratedToDomain(turns, text);
    NoSystem(messages, [], turns, text);
    if ToDomain(returned, []).Some? {
      assert returned[0..] == returned;
      ConvertedIsValid(returned, 0);
    } else {
      RefusedCalls(returned, |front|, turns, text);
    }
  }

  lemma {:induction false} TurnAt(turns: seq<Turn>, text: string, i: nat)
    requires i < |turns|
    ensures 2 * i < |HttpGenerated(turns, text)|
    ensures HttpGenerated(turns, text)[2 * i] == HttpMessage(Assistant, Calls(turns[i].calls), None)
    decreases turns
  {
    if i > 0 {
      TurnAt(turns[1..], text, i - 1);
    }
  }

  /** A blank call id fails validation as well. */
  lemma RefusedCalls(returned: seq<HttpMessage>, n: nat, turns: seq<Turn>, text: string)
    requires n <= |returned| && returned[n..] == HttpGenerated(turns, text)
    requires !forall i | 0 <= i < |turns| :: IdsPresent(turns[i])
    ensures !forall i | 0 <= i < |returned| :: Allowed(returned, i)
  {
    var i :| 0 <= i < |turns| && !IdsPresent(turns[i]);
    TurnAt(turns, text, i);
    assert returned[n..][2 * i] == returned[n + 2 * i];
    assert !Allowed(returned, n + 2 * i);
  }

  lemma {:induction false} HiddenInstruction(instruction: string, history: seq<DomainMessage>)
    ensures ToHttp([Plain(System, Str(instruction))] + history) == ToHttp(history)
  {
    var m := Plain(System, Str(instruction));
    assert MessageToHttp(m) == Some(None);
    HeadToHttp(m, history);
  }
}
