/**
 Live text over a bounded queue that may refuse a delta at any time.
 */
module TextSink {
  datatype Delivery = Delivery(prefix: string, stopped: bool)

  /** A delta that was queued; the turn is not part of the event. */
  datatype Live = Live(turn: nat, text: string)

  type Streamed = map<nat, Delivery>

  function At(streamed: Streamed, turn: nat): Delivery {
    if turn in streamed then streamed[turn] else Delivery("", false)
  }

  function TextOf(queue: seq<Live>, turn: nat): string {
    if queue == [] then ""
    else
      TextOf(queue[..|queue| - 1], turn)
      + if queue[|queue| - 1].turn == turn then queue[|queue| - 1].text else ""
  }

  function Emitted(emitted: map<nat, string>, turn: nat): string {
    if turn in emitted then emitted[turn] else ""
  }

  /**
   For each turn the client has received exactly the recorded prefix of what the model emitted, and all
   of it as long as no delta was refused.
   */
  predicate TurnOk(streamed: Streamed, queue: seq<Live>, emitted: map<nat, string>, turn: nat) {
    && TextOf(queue, turn) == At(streamed, turn).prefix
    && At(streamed, turn).prefix <= Emitted(emitted, turn)
    && (!At(streamed, turn).stopped ==> At(streamed, turn).prefix == Emitted(emitted, turn))
  }

  ghost predicate SinkOk(streamed: Streamed, queue: seq<Live>, emitted: map<nat, string>) {
    forall turn: nat :: TurnOk(streamed, queue, emitted, turn)
  }

  lemma TextOfAppend(queue: seq<Live>, live: Live, turn: nat)
    ensures TextOf(queue + [live], turn) == TextOf(queue, turn) + if live.turn == turn then live.text else ""
  {
    assert (queue + [live])[..|queue|] == queue;
  }

  /** What a delta of a turn adds to the queue. */
  function Queued(d: Delivery, turn: nat, text: string, accepted: bool): seq<Live> {
    if !d.stopped && accepted then [Live(turn, text)] else []
  }

  lemma {:induction false} DeltaKeeps(
    streamed: Streamed, queue: seq<Live>, emitted: map<nat, string>, turn: nat, text: string, accepted: bool)
    requires SinkOk(streamed, queue, emitted)
    ensures SinkOk(streamed[turn := AfterDelta(At(streamed, turn), text, accepted)],
                   queue + Queued(At(streamed, turn), turn, text, accepted),
                   emitted[turn := Emitted(emitted, turn) + text])
  {
    var d := At(streamed, turn);
    var streamed' := streamed[turn := AfterDelta(d, text, accepted)];
    var emitted' := emitted[turn := Emitted(emitted, turn) + text];
    var queue' := queue + Queued(d, turn, text, accepted);
    forall t: nat ensures TurnOk(streamed', queue', emitted', t) {
      assert TurnOk(streamed, queue, emitted, t);
      if !d.stopped && accepted {
        TextOfAppend(queue, Live(turn, text), t);
      } else {
        assert queue' == queue;
      }
      if t != turn {
        assert At(streamed', t) == At(streamed, t) && Emitted(emitted', t) == Emitted(emitted, t);
        assert TextOf(queue', t) + "" == TextOf(queue, t) + "";
      }
    }
  }

  function AfterDelta(d: Delivery, text: string, accepted: bool): Delivery {
    if d.stopped then d else if accepted then d.(prefix := d.prefix + text) else d.(stopped := true)
  }

  /** A piece of text the model emits, and whether the queue has room for it. */
  datatype Delta = Delta(text: string, accepted: bool)

  /** What the progress callback of one streamed chat keeps. */
  class Sink {
    var streamed: Streamed
    var queue: seq<Live>
    ghost var emitted: map<nat, string>

    ghost predicate Valid()
      reads this
    {
      SinkOk(streamed, queue, emitted) && streamed.Keys == emitted.Keys
    }

    constructor ()
      ensures Valid() && streamed == map[]
    {
      streamed, queue, emitted := map[], [], map[];
    }

    /** The progress callback. A refused delta stops the turn, so that no later one leaves a gap. */
    method OnTextDelta(turn: nat, text: string, accepted: bool)
      requires Valid()
      modifies this
      ensures Valid()
      ensures queue == old(queue) + Queued(At(old(streamed), turn), turn, text, accepted)
      ensures emitted == old(emitted)[turn := Emitted(old(emitted), turn) + text]
      ensures streamed == old(streamed)[turn := AfterDelta(At(old(streamed), turn), text, accepted)]
    {
      DeltaKeeps(streamed, queue, emitted, turn, text, accepted);
      var delivery := At(streamed, turn);
      if !delivery.stopped {
        if accepted {
          queue := queue + [Live(turn, text)];
          delivery := delivery.(prefix := delivery.prefix + text);
        } else {
          delivery := delivery.(stopped := true);
        }
      }
      assert old(queue) + [] == old(queue);
      streamed := streamed[turn := delivery];
      emitted := emitted[turn := Emitted(emitted, turn) + text];
    }

    /**
     The deltas of a new turn, one by one, as the model emits them. The client gets exactly those before
     the first one that the queue refuses.
     */
    method StreamDeltas(turn: nat, deltas: seq<Delta>) returns (text: string)
      requires Valid() && forall t | t in streamed :: t < turn
      modifies this
      ensures Valid() && forall t | t in streamed :: t <= turn
      ensures text == Emitted(emitted, turn) == Joined(deltas)
      ensures TextOf(queue, turn) == Joined(deltas[..FirstRefused(deltas)])
      ensures OnlyTurn(old(streamed), streamed, old(emitted), emitted, turn)
    {
      text := "";
      var i := 0;
      assert TurnOk(streamed, queue, emitted, turn);
      while i < |deltas|
        invariant 0 <= i <= |deltas| && Valid() && Emitted(emitted, turn) == text && text == Joined(deltas[..i])
        invariant forall t | t in streamed :: t <= turn
        invariant OnlyTurn(old(streamed), streamed, old(emitted), emitted, turn)
        invariant At(streamed, turn) == DeliveryAt(deltas, i)
      {
        JoinedMore(deltas, i);
        OnTextDelta(turn, deltas[i].text, deltas[i].accepted);
        text := text + deltas[i].text;
        i := i + 1;
      }
      assert deltas[..|deltas|] == deltas;
      DeltasDelivered(streamed, queue, emitted, turn, deltas);
    }
  }

  /** Nothing was recorded for other turns. */
  predicate OnlyTurn(
    streamed: Streamed, streamed': Streamed, emitted: map<nat, string>, emitted': map<nat, string>, turn: nat)
  {
    streamed' - {turn} == streamed - {turn} && emitted' - {turn} == emitted - {turn}
  }

  /** What has been delivered of a turn after its first n deltas. */
  function DeliveryAt(deltas: seq<Delta>, n: nat): Delivery
    requires n <= |deltas|
  {
    if n == 0 then Delivery("", false)
    else AfterDelta(DeliveryAt(deltas, n - 1), deltas[n - 1].text, deltas[n - 1].accepted)
  }

  lemma JoinedMore(deltas: seq<Delta>, n: nat)
    requires n < |deltas|
    ensures Joined(deltas[..n + 1]) == Joined(deltas[..n]) + deltas[n].text
  {
    assert deltas[..n + 1][..n] == deltas[..n];
  }

  lemma {:induction false} DeliveredIsPrefix(deltas: seq<Delta>, n: nat)
    requires n <= |deltas|
    ensures var first := FirstRefused(deltas);
      DeliveryAt(deltas, n) ==
        if n <= first then Delivery(Joined(deltas[..n]), false) else Delivery(Joined(deltas[..first]), true)
  {
    if n > 0 {
      DeliveredIsPrefix(deltas, n - 1);
      JoinedMore(deltas, n - 1);
    }
  }

  lemma DeltasDelivered(
    streamed: Streamed, queue: seq<Live>, emitted: map<nat, string>, turn: nat, deltas: seq<Delta>)
    requires SinkOk(streamed, queue, emitted) && At(streamed, turn) == DeliveryAt(deltas, |deltas|)
    ensures TextOf(queue, turn) == Joined(deltas[..FirstRefused(deltas)])
  {
    assert TurnOk(streamed, queue, emitted, turn);
    DeliveredIsPrefix(deltas, |deltas|);
  }

  function Joined(deltas: seq<Delta>): string {
    if deltas == [] then "" else Joined(deltas[..|deltas| - 1]) + deltas[|deltas| - 1].text
  }

  /** The index of the first delta that the queue refuses, or their number. */
  function FirstRefused(deltas: seq<Delta>): (n: nat)
    ensures n <= |deltas| && (n < |deltas| ==> !deltas[n].accepted)
    ensures forall i | 0 <= i < n :: deltas[i].accepted
  {
    if deltas == [] || !deltas[0].accepted then 0 else 1 + FirstRefused(deltas[1..])
  }
}
