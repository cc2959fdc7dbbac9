/**
 The reconciliation of a streamed chat's final response with the text the client got live: it sends what
 is missing, and refuses a response that contradicts what was sent.
 */
module TextDelivery {
  import opened Base
  import opened History
  import opened TextSink

  /** The number of model responses among the first n messages, which is the turn of the next one. */
  function Turns(messages: seq<HttpMessage>, n: nat): nat
    requires n <= |messages|
  {
    if n == 0 then 0 else Turns(messages, n - 1) + if messages[n - 1].role == Assistant then 1 else 0
  }

  predicate IsText(m: HttpMessage) { m.role == Assistant && m.content.Text? }

  /** A message the server generates: text or calls from the model, or tool results. */
  predicate IsGenerated(m: HttpMessage) {
    (m.role == Assistant && (m.content.Text? || m.content.Calls?)) || (m.role == Tool && m.content.Results?)
  }

  predicate AgreesAt(messages: seq<HttpMessage>, i: nat, streamed: Streamed)
    requires i < |messages|
  {
    IsText(messages[i]) ==> At(streamed, Turns(messages, i)).prefix <= messages[i].content.text
  }

  /** What was sent of each text among the first n messages is a prefix of it. */
  predicate Agrees(messages: seq<HttpMessage>, n: nat, streamed: Streamed) {
    n <= |messages| && forall i | 0 <= i < n :: AgreesAt(messages, i, streamed)
  }

  /** What is still missing of the text at index i. */
  function Missing(messages: seq<HttpMessage>, i: nat, streamed: Streamed): string
    requires i < |messages| && AgreesAt(messages, i, streamed)
  {
    if IsText(messages[i]) then messages[i].content.text[|At(streamed, Turns(messages, i)).prefix|..] else ""
  }

  /** The missing texts, in order. */
  function Suffixes(messages: seq<HttpMessage>, n: nat, streamed: Streamed): seq<string>
    requires Agrees(messages, n, streamed)
  {
    if n == 0 then []
    else
      Suffixes(messages, n - 1, streamed)
      + if Missing(messages, n - 1, streamed) == "" then [] else [Missing(messages, n - 1, streamed)]
  }

  predicate Reconcilable(generated: seq<HttpMessage>, streamed: Streamed) {
    && (forall i | 0 <= i < |generated| :: IsGenerated(generated[i]))
    && Agrees(generated, |generated|, streamed)
    && forall t | t in streamed :: t < Turns(generated, |generated|)
  }

  /** The deltas after the live ones; `None` when the response contradicts what was sent. */
  method ResponseEvents(messages: seq<HttpMessage>, inputCount: nat, streamed: Streamed)
    returns (r: Option<seq<string>>)
    ensures r.Some? <==> inputCount <= |messages| && Reconcilable(messages[inputCount..], streamed)
    ensures r.Some? ==> r.value == Suffixes(messages[inputCount..], |messages| - inputCount, streamed)
  {
    if inputCount > |messages| {
      return None;
    }
    var generated := messages[inputCount..];
    var events: seq<string>, turn, i := [], 0, 0;
    while i < |generated|
      invariant 0 <= i <= |generated| && turn == Turns(generated, i)
      invariant forall j | 0 <= j < i :: IsGenerated(generated[j])
      invariant Agrees(generated, i, streamed) && events == Suffixes(generated, i, streamed)
    {
      var m := generated[i];
      if !IsGenerated(m) {
        return None;
      }
      if m.content.Text? {
        var prefix := At(streamed, turn).prefix;
        if !(prefix <= m.content.text) {
          assert !AgreesAt(generated, i, streamed);
          return None;
        }
        var unsent := m.content.text[|prefix|..];
        if unsent != "" {
          events := events + [unsent];
        }
      }
      if m.role == Assistant {
        turn := turn + 1;
      }
      i := i + 1;
    }
    if t :| t in streamed && t >= turn {
      return None;
    }
    return Some(events);
  }

  // ----- No gap, nothing twice -----

  lemma {:induction false} TurnsPrefix(messages: seq<HttpMessage>, more: seq<HttpMessage>, n: nat)
    requires n <= |messages|
    ensures Turns(messages + more, n) == Turns(messages, n)
  {
    if n > 0 {
      TurnsPrefix(messages, more, n - 1);
    }
  }

  /** What the model emitted in a text turn is a prefix of its final text. */
  predicate Verified(messages: seq<HttpMessage>, emitted: map<nat, string>) {
    forall i | 0 <= i < |messages| && IsText(messages[i]) ::
      Emitted(emitted, Turns(messages, i)) <= messages[i].content.text
  }

  predicate EndsWithItsOnlyText(messages: seq<HttpMessage>) {
    messages != [] && IsText(messages[|messages| - 1]) && forall i | 0 <= i < |messages| - 1 :: !IsText(messages[i])
  }

  /**
   For every pattern of refused deltas the reconciliation of a streamed chat succeeds, and for each text
   of the response what the client received live, followed by what is sent now, is exactly that text.
   */
  lemma {:induction false} TextIsDeliveredOnce(
    messages: seq<HttpMessage>, streamed: Streamed, queue: seq<Live>, emitted: map<nat, string>)
    requires SinkOk(streamed, queue, emitted) && Verified(messages, emitted)
    requires forall i | 0 <= i < |messages| :: IsGenerated(messages[i])
    requires forall t | t in streamed :: t < Turns(messages, |messages|)
    ensures Reconcilable(messages, streamed)
    ensures forall i | 0 <= i < |messages| && IsText(messages[i]) ::
      TextOf(queue, Turns(messages, i)) + Missing(messages, i, streamed) == messages[i].content.text
  {
    forall i | 0 <= i < |messages| ensures AgreesAt(messages, i, streamed) {
      assert TurnOk(streamed, queue, emitted, Turns(messages, i));
    }
    forall i | 0 <= i < |messages| && IsText(messages[i])
      ensures TextOf(queue, Turns(messages, i)) + Missing(messages, i, streamed) == messages[i].content.text
    {
      assert TurnOk(streamed, queue, emitted, Turns(messages, i));
    }
  }

  /** A completed chat has one text, its last message: only its missing part is sent after the live deltas. */
  lemma {:induction false} FinalTextIsCompleted(messages: seq<HttpMessage>, streamed: Streamed, queue: seq<Live>)
    requires EndsWithItsOnlyText(messages) && Agrees(messages, |messages|, streamed)
    requires forall i | 0 <= i < |messages| && IsText(messages[i]) ::
      TextOf(queue, Turns(messages, i)) + Missing(messages, i, streamed) == messages[i].content.text
    ensures TextOf(queue, Turns(messages, |messages| - 1)) + Concat(Suffixes(messages, |messages|, streamed))
         == messages[|messages| - 1].content.text
  {
    OneSuffix(messages, |messages| - 1, streamed);
  }

  /** A final text that continues what was emitted in its turn is delivered exactly. */
  lemma {:induction false} FinalTextIsDelivered(
    messages: seq<HttpMessage>, streamed: Streamed, queue: seq<Live>, emitted: map<nat, string>)
    requires SinkOk(streamed, queue, emitted) && EndsWithItsOnlyText(messages)
    requires forall i | 0 <= i < |messages| :: IsGenerated(messages[i])
    requires forall t | t in streamed :: t < Turns(messages, |messages|)
    requires Emitted(emitted, Turns(messages, |messages| - 1)) <= messages[|messages| - 1].content.text
    ensures Reconcilable(messages, streamed)
    ensures TextOf(queue, Turns(messages, |messages| - 1)) + Concat(Suffixes(messages, |messages|, streamed))
         == messages[|messages| - 1].content.text
  {
    TextIsDeliveredOnce(messages, streamed, queue, emitted);
    FinalTextIsCompleted(messages, streamed, queue);
  }

  lemma {:induction false} OneSuffix(messages: seq<HttpMessage>, last: nat, streamed: Streamed)
    requires Agrees(messages, last + 1, streamed) && forall i | 0 <= i < last :: !IsText(messages[i])
    ensures Concat(Suffixes(messages, last + 1, streamed)) == Missing(messages, last, streamed)
  {
    NoSuffixes(messages, last, streamed);
    var missing := Missing(messages, last, streamed);
    assert Concat([missing]) == missing + "" == missing;
  }

  lemma {:induction false} NoSuffixes(messages: seq<HttpMessage>, n: nat, streamed: Streamed)
    requires Agrees(messages, n, streamed) && forall i | 0 <= i < n :: !IsText(messages[i])
    ensures Suffixes(messages, n, streamed) == []
  {
    if n > 0 {
      NoSuffixes(messages, n - 1, streamed);
    }
  }

  function Concat(texts: seq<string>): string {
    if texts == [] then "" else texts[0] + Concat(texts[1..])
  }
}
