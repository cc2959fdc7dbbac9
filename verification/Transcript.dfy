/**
 The part of a chat history that the server generates: model responses and the tool results that answer
 their calls.
 */
module Transcript {
  import opened Base

  type Value(==, 0, !new)
  /** A message of the request, which the server keeps as it is. */
  type Asked(==, 0, !new)
  type CallId(==, 0, !new)
  type ToolName(==, 0, !new)

  datatype ToolCall = ToolCall(id: CallId, name: ToolName, args: Value)
  datatype ToolResult = ToolResult(id: CallId, name: ToolName, content: Value, isError: bool)

  datatype Message =
    | Request(asked: Asked)
    | Response(content: Value, calls: seq<ToolCall>)
    | Answer(result: ToolResult)

  predicate Answers(m: Message, call: ToolCall) {
    m.Answer? && m.result.id == call.id && m.result.name == call.name
  }

  /** The calls still waiting for an answer after one more message; `None` when it is out of place. */
  function OwedAfter(owed: Option<seq<ToolCall>>, m: Message): Option<seq<ToolCall>> {
    match owed
    case None => None
    case Some(calls) =>
      match m
      case Request(_) => None
      case Response(_, next) => if calls == [] then Some(next) else None
      case Answer(_) => if calls != [] && Answers(m, calls[0]) then Some(calls[1..]) else None
  }

  /** The calls a generated history still owes an answer, in order. */
  function Owed(generated: seq<Message>): Option<seq<ToolCall>> {
    if generated == [] then Some([])
    else OwedAfter(Owed(generated[..|generated| - 1]), generated[|generated| - 1])
  }

  /** The number of model responses. */
  function Responses(generated: seq<Message>): nat {
    if generated == [] then 0
    else Responses(generated[..|generated| - 1]) + if generated[|generated| - 1].Response? then 1 else 0
  }

  lemma OwedAppend(generated: seq<Message>, m: Message)
    ensures Owed(generated + [m]) == OwedAfter(Owed(generated), m)
    ensures Responses(generated + [m]) == Responses(generated) + if m.Response? then 1 else 0
  {
    assert (generated + [m])[..|generated|] == generated;
  }

  /** The messages at i+1, i+2, ... answer the first n calls of the response at i. */
  predicate AnsweredUpTo(generated: seq<Message>, i: nat, n: nat) {
    && i < |generated| && generated[i].Response? && n <= |generated[i].calls| && i + n < |generated|
    && forall k | 0 <= k < n :: Answers(generated[i + 1 + k], generated[i].calls[k])
  }

  /** While calls are owed, they are the tail of the last response's, and the others are answered after it. */
  lemma {:induction false} OwedIsATail(generated: seq<Message>) returns (i: nat)
    requires Owed(generated).Some? && generated != []
    ensures i < |generated| && generated[i].Response?
    ensures |Owed(generated).value| <= |generated[i].calls|
    ensures var n := |generated[i].calls| - |Owed(generated).value|;
      && Owed(generated).value == generated[i].calls[n..]
      && AnsweredUpTo(generated, i, n) && i + n + 1 == |generated|
    ensures forall j | i < j < |generated| :: generated[j].Answer?
    decreases |generated|
  {
    var last := |generated| - 1;
    var before := generated[..last];
    if generated[last].Response? {
      i := last;
    } else {
      i := OwedIsATail(before);
      assert forall j | i <= j < last :: before[j] == generated[j];
      var n := |before[i].calls| - |Owed(before).value|;
      assert generated[i].calls[n..][1..] == generated[i].calls[n + 1..];
      forall k | 0 <= k < n + 1 ensures Answers(generated[i + 1 + k], generated[i].calls[k]) {
        if k < n {
          assert before[i + 1 + k] == generated[i + 1 + k];
        }
      }
    }
  }

  /** Every response of a well-formed history is answered directly after it, or is the last one. */
  lemma {:induction false} EveryResponseAnswered(generated: seq<Message>, i: nat)
    requires Owed(generated).Some? && i < |generated| && generated[i].Response?
    ensures AnsweredUpTo(generated, i, |generated[i].calls|)
      || (Owed(generated) != Some([]) && forall j | i < j < |generated| :: !generated[j].Response?)
    decreases |generated|
  {
    var r := OwedIsATail(generated);
    if i < r {
      OwedPrefix(generated, r + 1);
      var before := generated[..r];
      assert generated[..r + 1][..r] == before;
      assert before[i] == generated[i];
      EveryResponseAnswered(before, i);
      AnsweredInPrefix(generated, r, i, |before[i].calls|);
    }
  }

  lemma AnsweredInPrefix(generated: seq<Message>, r: nat, i: nat, n: nat)
    requires r <= |generated| && AnsweredUpTo(generated[..r], i, n)
    ensures AnsweredUpTo(generated, i, n)
  {
    var before := generated[..r];
    forall k | 0 <= k < n ensures Answers(generated[i + 1 + k], generated[i].calls[k]) {
      assert Answers(before[i + 1 + k], before[i].calls[k]);
    }
  }

  /**
   A history that owes nothing: each response's calls are answered one by one, in call order, directly
   after it, and every answer is such an answer.
   */
  lemma SettledHistory(generated: seq<Message>)
    requires Owed(generated) == Some([])
    ensures forall i | 0 <= i < |generated| && generated[i].Response? ::
      AnsweredUpTo(generated, i, |generated[i].calls|)
    ensures forall j | 0 <= j < |generated| && !generated[j].Response? :: Placed(generated, j)
  {
    forall i | 0 <= i < |generated| && generated[i].Response?
      ensures AnsweredUpTo(generated, i, |generated[i].calls|)
    {
      EveryResponseAnswered(generated, i);
    }
    forall j | 0 <= j < |generated| && !generated[j].Response? ensures Placed(generated, j) {
      EveryAnswerPlaced(generated, j);
    }
  }

  /** The message at j answers the call it should: the one at its distance from the response before it. */
  ghost predicate Placed(generated: seq<Message>, j: nat) {
    exists i :: 0 <= i < j < |generated| && AnswersFrom(generated, i, j)
  }

  predicate AnswersFrom(generated: seq<Message>, i: nat, j: nat)
    requires i < j < |generated|
  {
    && generated[i].Response? && j - i - 1 < |generated[i].calls|
    && Answers(generated[j], generated[i].calls[j - i - 1])
    && forall k | i < k < j :: !generated[k].Response?
  }

  lemma {:induction false} EveryAnswerPlaced(generated: seq<Message>, j: nat)
    requires Owed(generated).Some? && j < |generated| && !generated[j].Response?
    ensures Placed(generated, j)
    decreases |generated|
  {
    var upTo := generated[..j + 1];
    OwedPrefix(generated, j + 1);
    var i := OwedIsATail(upTo);
    var n := |upTo[i].calls| - |Owed(upTo).value|;
    assert i + n == j && upTo[j] == generated[j] && upTo[i] == generated[i];
    assert Answers(upTo[i + 1 + (n - 1)], upTo[i].calls[n - 1]);
    assert forall k | i < k < j :: upTo[k] == generated[k];
    assert AnswersFrom(generated, i, j);
  }

  lemma {:induction false} OwedPrefix(generated: seq<Message>, n: nat)
    requires Owed(generated).Some? && n <= |generated|
    ensures Owed(generated[..n]).Some?
    decreases |generated|
  {
    if n < |generated| {
      var before := generated[..|generated| - 1];
      OwedPrefix(before, n);
      assert before[..n] == generated[..n];
    } else {
      assert generated[..n] == generated;
    }
  }
}
