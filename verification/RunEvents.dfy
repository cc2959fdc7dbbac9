/**
 The client-visible events of a direct run, and what it means for a stream of them to be well formed.
 */
module RunEvents {
  import opened Base

  type MessageId(==, !new)

  datatype ErrorCode =
    | InvalidStreamItem
    | InconsistentTerminalSnapshot
    | IncompleteStream
    | StreamFailure(code: string)
    | JobFailed
    | CancelledByUser

  datatype Event =
    | RunStarted
    | TextStart(message: MessageId)
    | TextContent(message: MessageId, delta: string)
    | TextEnd(message: MessageId)
    | ToolStart(id: string, name: string)
    | ToolArgs(id: string, args: string)
    | ToolEnd(id: string)
    | RunFinished
    | RunError(code: ErrorCode)
  {
    predicate IsTerminal() { RunFinished? || RunError? }
  }

  predicate NoTerminal(events: seq<Event>) {
    forall i | 0 <= i < |events| :: !events[i].IsTerminal() && !events[i].RunStarted?
  }

  // ----- Text brackets -----

  /** Where a run stands with its one text message. */
  datatype Bracket = Idle | Open | Closed | Broken

  function Bracketed(b: Bracket, event: Event, m: MessageId): Bracket {
    match event
    case TextStart(id) => if b == Idle && id == m then Open else Broken
    case TextContent(id, _) => if b == Open && id == m then Open else Broken
    case TextEnd(id) => if b == Open && id == m then Closed else Broken
    case _ => b
  }

  function BracketAfter(b: Bracket, events: seq<Event>, m: MessageId): Bracket
    decreases events
  {
    if events == [] then b else BracketAfter(Bracketed(b, events[0], m), events[1..], m)
  }

  lemma {:induction false} BracketSplits(b: Bracket, xs: seq<Event>, ys: seq<Event>, m: MessageId)
    ensures BracketAfter(b, xs + ys, m) == BracketAfter(BracketAfter(b, xs, m), ys, m)
    decreases xs
  {
    if xs == [] {
      assert xs + ys == ys;
    } else {
      assert (xs + ys)[1..] == xs[1..] + ys;
      BracketSplits(Bracketed(b, xs[0], m), xs[1..], ys, m);
    }
  }

  predicate Settled(b: Bracket) { b == Idle || b == Closed }

  /**
   A source that may feed a run: up to its first terminal event the text brackets match, and the text
   is closed when the terminal event or the end of the source comes.
   */
  predicate Feeds(source: seq<Event>, b: Bracket, m: MessageId)
    decreases |source|
  {
    && b != Broken
    && (if source == [] || source[0].IsTerminal() then Settled(b)
        else !source[0].RunStarted? && Feeds(source[1..], Bracketed(b, source[0], m), m))
  }

  lemma {:induction false} FeedsAfter(xs: seq<Event>, ys: seq<Event>, b: Bracket, m: MessageId)
    requires NoTerminal(xs)
    requires Feeds(ys, BracketAfter(b, xs, m), m)
    ensures Feeds(xs + ys, b, m)
    decreases |xs|
  {
    if xs == [] {
      assert xs + ys == ys;
    } else {
      assert (xs + ys)[1..] == xs[1..] + ys;
      FeedsAfter(xs[1..], ys, Bracketed(b, xs[0], m), m);
      assert Bracketed(b, xs[0], m) != Broken;
    }
  }

  /** Every TEXT_MESSAGE_START of a settled stream is closed once, by the only TEXT_MESSAGE_END. */
  lemma {:induction false} SettledTextIsClosedOnce(events: seq<Event>, b: Bracket, m: MessageId)
    requires Settled(BracketAfter(b, events, m)) && b != Broken
    ensures b == Idle ==> Count(events, TextStart(m)) == Count(events, TextEnd(m)) <= 1
    ensures b == Open ==> Count(events, TextStart(m)) == 0 && Count(events, TextEnd(m)) == 1
    ensures b == Closed ==> Count(events, TextStart(m)) == 0 && Count(events, TextEnd(m)) == 0
    ensures forall e | e in events && (e.TextStart? || e.TextContent? || e.TextEnd?) :: e.message == m
    decreases events
  {
    if events != [] {
      var b' := Bracketed(b, events[0], m);
      if b' == Broken {
        BrokenStays(events[1..], m);
      }
      SettledTextIsClosedOnce(events[1..], b', m);
      assert events == [events[0]] + events[1..];
    }
  }

  lemma {:induction false} BrokenStays(events: seq<Event>, m: MessageId)
    ensures BracketAfter(Broken, events, m) == Broken
    decreases events
  {
    if events != [] {
      BrokenStays(events[1..], m);
    }
  }

  function Count(events: seq<Event>, e: Event): nat {
    if events == [] then 0 else (if events[0] == e then 1 else 0) + Count(events[1..], e)
  }

  /** The text a client assembles from a stream of events. */
  function Deltas(events: seq<Event>): string {
    if events == [] then ""
    else (if events[0].TextContent? then events[0].delta else "") + Deltas(events[1..])
  }

  lemma {:induction false} DeltasConcat(xs: seq<Event>, ys: seq<Event>)
    ensures Deltas(xs + ys) == Deltas(xs) + Deltas(ys)
    decreases xs
  {
    if xs == [] {
      assert xs + ys == ys;
    } else {
      assert (xs + ys)[1..] == xs[1..] + ys;
      DeltasConcat(xs[1..], ys);
      Assoc(if xs[0].TextContent? then xs[0].delta else "", Deltas(xs[1..]), Deltas(ys));
    }
  }

  function OnlyTool(event: Event): seq<Event> {
    if event.ToolStart? || event.ToolArgs? || event.ToolEnd? then [event] else []
  }

  /** The tool events of a stream, in order. */
  function ToolEvents(events: seq<Event>): seq<Event> {
    if events == [] then [] else OnlyTool(events[0]) + ToolEvents(events[1..])
  }

  lemma {:induction false} ToolEventsConcat(xs: seq<Event>, ys: seq<Event>)
    ensures ToolEvents(xs + ys) == ToolEvents(xs) + ToolEvents(ys)
    decreases xs
  {
    if xs == [] {
      assert xs + ys == ys;
    } else {
      assert (xs + ys)[1..] == xs[1..] + ys;
      ToolEventsConcat(xs[1..], ys);
      Assoc(OnlyTool(xs[0]), ToolEvents(xs[1..]), ToolEvents(ys));
    }
  }
}
