/**
 The first stage of a direct run: a registered LLM worker's output items become client-visible events.
 */
module DirectConvert {
  import opened Base
  import opened RunEvents

  datatype Call = Call(id: string, name: string, args: string)

  /** One decoded stream item: its text, its tool calls and its completion flag. */
  datatype ChatResult = ChatResult(text: Option<string>, calls: seq<Call>, done: bool)

  /** `Data(None)` holds bytes that do not decode; `End` carries the failure its trailer reports. */
  datatype Item = Data(result: Option<ChatResult>) | End(failure: Option<string>) | FinalCollected | Empty

  // ----- What the items mean, without the loop's flags -----

  /** A terminal text is a snapshot; any other text is a delta. */
  function TextAfter(text: string, r: ChatResult): string {
    match r.text
    case None => text
    case Some(t) => if r.done then t else text + t
  }

  predicate Mismatched(text: string, r: ChatResult) {
    r.done && r.text.Some? && !(text <= r.text.value)
  }

  /** The items end here, or the first of them ends or fails the stream. */
  predicate Stops(items: seq<Item>, text: string) {
    items == [] || items[0].End? || items[0] == Data(None)
    || (items[0].Data? && Mismatched(text, items[0].result.value))
  }

  /** The failure a stream that stops here amounts to, if any. */
  function Failure(items: seq<Item>, text: string, done: bool): Option<ErrorCode>
    requires Stops(items, text)
  {
    if items == [] then (if done then None else Some(IncompleteStream))
    else match items[0]
      case Data(None) => Some(InvalidStreamItem)
      case End(failure) =>
        if !done then Some(IncompleteStream)
        else if failure.Some? then Some(StreamFailure(failure.value))
        else None
      case _ => Some(InconsistentTerminalSnapshot)
  }

  /** The results taken from the items before the stream stops. */
  function Accepted(items: seq<Item>, text: string): seq<ChatResult>
    decreases items
  {
    if Stops(items, text) then []
    else if items[0].Data? then
      var r := items[0].result.value;
      [r] + Accepted(items[1..], TextAfter(text, r))
    else Accepted(items[1..], text)
  }

  /** The failure the whole stream amounts to, if any. */
  function Verdict(items: seq<Item>, text: string, done: bool): Option<ErrorCode>
    decreases items
  {
    if Stops(items, text) then Failure(items, text, done)
    else if items[0].Data? then
      var r := items[0].result.value;
      Verdict(items[1..], TextAfter(text, r), done || r.done)
    else Verdict(items[1..], text, done)
  }

  function Text(results: seq<ChatResult>, text: string): string
    decreases results
  {
    if results == [] then text else Text(results[1..], TextAfter(text, results[0]))
  }

  function Calls(results: seq<ChatResult>): seq<Call> {
    if results == [] then [] else results[0].calls + Calls(results[1..])
  }

  /** The calls of the first n whose id none of the calls before them has. */
  function FirstOccurrences(calls: seq<Call>, n: nat): seq<Call>
    requires n <= |calls|
  {
    if n == 0 then []
    else
      FirstOccurrences(calls, n - 1)
      + if exists j | 0 <= j < n - 1 :: calls[j].id == calls[n - 1].id then [] else [calls[n - 1]]
  }

  function Triples(calls: seq<Call>): seq<Event> {
    if calls == [] then [] else Triple(calls[0]) + Triples(calls[1..])
  }

  function Triple(call: Call): seq<Event> {
    [ToolStart(call.id, call.name), ToolArgs(call.id, call.args), ToolEnd(call.id)]
  }

  /** Tool events come only as START, ARGS and END of one call with nothing in between. */
  predicate Contiguous(events: seq<Event>)
    decreases events
  {
    if events == [] then true
    else if events[0].ToolStart? then
      && |events| >= 3 && events[1].ToolArgs? && events[2].ToolEnd?
      && events[0].id == events[1].id == events[2].id
      && Contiguous(events[3..])
    else !events[0].ToolArgs? && !events[0].ToolEnd? && Contiguous(events[1..])
  }

  // ----- The conversion -----

  function Ids(calls: seq<Call>): set<string> {
    set c | c in calls :: c.id
  }

  /** The calls whose id is neither in `seen` nor earlier in `calls`. */
  function Fresh(calls: seq<Call>, seen: set<string>): seq<Call>
    decreases calls
  {
    if calls == [] then []
    else if calls[0].id in seen then Fresh(calls[1..], seen)
    else [calls[0]] + Fresh(calls[1..], seen + {calls[0].id})
  }

  function DeltaEvents(text: string, r: ChatResult, m: MessageId): seq<Event>
    requires !Mismatched(text, r)
  {
    var next := TextAfter(text, r);
    if next == text then []
    else (if text == "" then [TextStart(m)] else []) + [TextContent(m, next[|text|..])]
  }

  function Closing(text: string, m: MessageId): seq<Event> {
    if text == "" then [] else [TextEnd(m)]
  }

  function ErrorEvents(error: Option<ErrorCode>): seq<Event> {
    if error.Some? then [RunError(error.value)] else []
  }

  /** The events for one result: its text, then the calls not announced before. */
  function ResultEvents(text: string, r: ChatResult, seen: set<string>, m: MessageId): seq<Event>
    requires !Mismatched(text, r)
  {
    DeltaEvents(text, r, m) + Triples(Fresh(r.calls, seen))
  }

  /** The events for `items` once `text` was streamed and the calls in `seen` were announced. */
  function Converted(items: seq<Item>, text: string, seen: set<string>, done: bool, m: MessageId): seq<Event>
    decreases items
  {
    if Stops(items, text) then Closing(text, m) + ErrorEvents(Failure(items, text, done))
    else if items[0].Data? then
      var r := items[0].result.value;
      ResultEvents(text, r, seen, m)
      + Converted(items[1..], TextAfter(text, r), seen + Ids(r.calls), done || r.done, m)
    else Converted(items[1..], text, seen, done, m)
  }

  method Announce(calls: seq<Call>, seen: set<string>) returns (events: seq<Event>, seen': set<string>)
    ensures events == Triples(Fresh(calls, seen))
    ensures seen' == seen + Ids(calls)
  {
    events, seen' := [], seen;
    for i := 0 to |calls|
      invariant seen' == seen + Ids(calls[..i])
      invariant events + Triples(Fresh(calls[i..], seen')) == Triples(Fresh(calls, seen))
    {
      var call := calls[i];
      assert calls[i..][1..] == calls[i + 1..];
      assert calls[..i + 1] == calls[..i] + [call];
      if call.id !in seen' {
        seen' := seen' + {call.id};
        var triple := [ToolStart(call.id, call.name), ToolArgs(call.id, call.args), ToolEnd(call.id)];
        assert Triples([call] + Fresh(calls[i + 1..], seen')) == triple + Triples(Fresh(calls[i + 1..], seen'));
        events := events + triple;
      }
      assert seen' == seen + Ids(calls[..i + 1]);
    }
    assert calls[..|calls|] == calls;
  }

  /** One DATA item that decoded: its text, then its calls. */
  method Emit(r: ChatResult, text: string, started: bool, seen: set<string>, m: MessageId)
    returns (events: seq<Event>, text': string, started': bool, seen': set<string>)
    requires started <==> text != ""
    requires !Mismatched(text, r)
    ensures events == ResultEvents(text, r, seen, m)
    ensures text' == TextAfter(text, r) && seen' == seen + Ids(r.calls)
    ensures started' <==> text' != ""
  {
    events, text', started' := [], text, started;
    if r.text.Some? {
      var delta := r.text.value;
      if r.done {
        delta := if r.text.value == text then "" else r.text.value[|text|..];
      }
      assert TextAfter(text, r) == text + delta;
      if delta != "" {
        if !started {
          started' := true;
          events := events + [TextStart(m)];
        }
        text' := text + delta;
        assert text'[|text|..] == delta;
        events := events + [TextContent(m, delta)];
      }
    }
    var announced;
    announced, seen' := Announce(r.calls, seen);
    events := events + announced;
  }

  /** Close the text if it is open. */
  method CloseText(events: seq<Event>, started: bool, ended: bool, m: MessageId) returns (r: seq<Event>, ended': bool)
    ensures r == events + (if started && !ended then [TextEnd(m)] else []) && ended' == (started || ended)
  {
    r, ended' := events, ended;
    if started && !ended {
      ended' := true;
      r := r + [TextEnd(m)];
    }
  }

  method Convert(items: seq<Item>, m: MessageId) returns (events: seq<Event>)
    ensures events == Converted(items, "", {}, false, m)
  {
    events := [];
    var startedText, endedText, calls, sawDone, emittedError, text := false, false, {}, false, false, "";
    var i := 0;
    ghost var whole, rest := Converted(items, "", {}, false, m), Converted(items, "", {}, false, m);
    assert items[0..] == items;
    while i < |items|
      invariant 0 <= i <= |items|
      invariant !endedText && !emittedError && (startedText <==> text != "")
      invariant rest == Converted(items[i..], text, calls, sawDone, m) && events + rest == whole
    {
      var item := items[i];
      assert items[i..][0] == item && items[i..][1..] == items[i + 1..];
      if item == Data(None) {
        Assoc(events, Closing(text, m), [RunError(InvalidStreamItem)]);
        emittedError, rest := true, [];
        events, endedText := CloseText(events, startedText, endedText, m);
        events := events + [RunError(InvalidStreamItem)];
        break;
      } else if item.Data? {
        var r := item.result.value;
        if r.text.Some? && r.done && r.text.value != text && !(text <= r.text.value) {
          Assoc(events, Closing(text, m), [RunError(InconsistentTerminalSnapshot)]);
          emittedError, rest := true, [];
          events, endedText := CloseText(events, startedText, endedText, m);
          events := events + [RunError(InconsistentTerminalSnapshot)];
          break;
        }
        var emitted;
        emitted, text, startedText, calls := Emit(r, text, startedText, calls, m);
        sawDone := sawDone || r.done;
        rest := Converted(items[i + 1..], text, calls, sawDone, m);
        Assoc(events, emitted, rest);
        events := events + emitted;
      } else if item.End? {
        Assoc(events, Closing(text, m), ErrorEvents(Failure(items[i..], text, sawDone)));
        rest := [];
        events, endedText := CloseText(events, startedText, endedText, m);
        if !sawDone {
          emittedError := true;
          events := events + [RunError(IncompleteStream)];
        } else if item.failure.Some? {
          emittedError := true;
          events := events + [RunError(StreamFailure(item.failure.value))];
        }
        break;
      }
      i := i + 1;
    }
    assert events + rest == whole;
    Assoc(events, Closing(text, m), ErrorEvents(if sawDone then None else Some(IncompleteStream)));
    events, endedText := CloseText(events, startedText, endedText, m);
    if !sawDone && !emittedError {
      events := events + [RunError(IncompleteStream)];
    }
  }

  // ----- The events of one result -----

  lemma {:induction false} TriplesOnlyTools(calls: seq<Call>, m: MessageId)
    ensures Deltas(Triples(calls)) == ""
    ensures forall b :: BracketAfter(b, Triples(calls), m) == b
    ensures NoTerminal(Triples(calls))
    ensures ToolEvents(Triples(calls)) == Triples(calls)
    ensures Contiguous(Triples(calls))
    decreases calls
  {
    if calls != [] {
      var rest := Triples(calls[1..]);
      TriplesOnlyTools(calls[1..], m);
      TripleOnlyTools(calls[0], m);
      DeltasConcat(Triple(calls[0]), rest);
      ToolEventsConcat(Triple(calls[0]), rest);
      ContiguousConcat(Triple(calls[0]), rest);
      forall b ensures BracketAfter(b, Triples(calls), m) == b {
        BracketSplits(b, Triple(calls[0]), rest, m);
      }
    }
  }

  lemma TripleOnlyTools(call: Call, m: MessageId)
    ensures Deltas(Triple(call)) == ""
    ensures forall b :: BracketAfter(b, Triple(call), m) == b
    ensures ToolEvents(Triple(call)) == Triple(call)
    ensures Contiguous(Triple(call))
  {
    var start, args, end := ToolStart(call.id, call.name), ToolArgs(call.id, call.args), ToolEnd(call.id);
    assert Triple(call) == [start] + ([args] + [end]);
    DeltasConcat([start], [args] + [end]);
    DeltasConcat([args], [end]);
    ToolEventsConcat([start], [args] + [end]);
    ToolEventsConcat([args], [end]);
    forall b ensures BracketAfter(b, Triple(call), m) == b {
      BracketSplits(b, [start], [args] + [end], m);
      BracketSplits(b, [args], [end], m);
    }
  }

  lemma {:induction false} ContiguousConcat(xs: seq<Event>, ys: seq<Event>)
    requires Contiguous(xs) && Contiguous(ys)
    ensures Contiguous(xs + ys)
    decreases xs
  {
    if xs == [] {
      assert xs + ys == ys;
    } else if xs[0].ToolStart? {
      assert (xs + ys)[3..] == xs[3..] + ys;
      ContiguousConcat(xs[3..], ys);
    } else {
      assert (xs + ys)[1..] == xs[1..] + ys;
      ContiguousConcat(xs[1..], ys);
    }
  }

  lemma DeltaOnlyText(text: string, r: ChatResult, m: MessageId)
    requires !Mismatched(text, r)
    ensures var events := DeltaEvents(text, r, m);
      && text + Deltas(events) == TextAfter(text, r)
      && BracketAfter(BracketOf(text), events, m) == BracketOf(TextAfter(text, r))
      && NoTerminal(events) && ToolEvents(events) == [] && Contiguous(events)
  {
    var next := TextAfter(text, r);
    if next != text {
      var content := [TextContent(m, next[|text|..])];
      assert text <= next && text + next[|text|..] == next;
      assert Deltas(content) == next[|text|..] && ToolEvents(content) == [];
      assert BracketAfter(Open, content, m) == Open;
      if text == "" {
        DeltasConcat([TextStart(m)], content);
        ToolEventsConcat([TextStart(m)], content);
        BracketSplits(Idle, [TextStart(m)], content, m);
        assert DeltaEvents(text, r, m) == [TextStart(m)] + content;
      } else {
        assert DeltaEvents(text, r, m) == content;
      }
    }
  }

  lemma ResultOnly(text: string, r: ChatResult, seen: set<string>, m: MessageId)
    requires !Mismatched(text, r)
    ensures var events := ResultEvents(text, r, seen, m);
      && text + Deltas(events) == TextAfter(text, r)
      && BracketAfter(BracketOf(text), events, m) == BracketOf(TextAfter(text, r))
      && NoTerminal(events) && ToolEvents(events) == Triples(Fresh(r.calls, seen)) && Contiguous(events)
  {
    var deltas, tools := DeltaEvents(text, r, m), Triples(Fresh(r.calls, seen));
    DeltaOnlyText(text, r, m);
    TriplesOnlyTools(Fresh(r.calls, seen), m);
    DeltasConcat(deltas, tools);
    assert text + (Deltas(deltas) + "") == text + Deltas(deltas) && [] + tools == tools;
    ToolEventsConcat(deltas, tools);
    ContiguousConcat(deltas, tools);
    BracketSplits(BracketOf(text), deltas, tools, m);
  }

  function BracketOf(text: string): Bracket {
    if text == "" then Idle else Open
  }

  // ----- Text -----

  /**
   What the client assembles is the worker's text: every delta appended, every terminal snapshot taken
   as it is. This holds whether or not the stream fails later.
   */
  lemma {:induction false} DeltasAreTheText(items: seq<Item>, text: string, seen: set<string>, done: bool, m: MessageId)
    ensures text + Deltas(Converted(items, text, seen, done, m)) == Text(Accepted(items, text), text)
    decreases items
  {
    if Stops(items, text) {
      assert Deltas(Closing(text, m)) == "" == Deltas(ErrorEvents(Failure(items, text, done)));
      DeltasConcat(Closing(text, m), ErrorEvents(Failure(items, text, done)));
    } else if items[0].Data? {
      var r := items[0].result.value;
      var next, seen' := TextAfter(text, r), seen + Ids(r.calls);
      DeltasAreTheText(items[1..], next, seen', done || r.done, m);
      ResultOnly(text, r, seen, m);
      var events, rest := ResultEvents(text, r, seen, m), Converted(items[1..], next, seen', done || r.done, m);
      DeltasConcat(events, rest);
      Assoc(text, Deltas(events), Deltas(rest));
    } else {
      DeltasAreTheText(items[1..], text, seen, done, m);
    }
  }

  predicate IsSnapshot(r: ChatResult) { r.done && r.text.Some? }

  /** The texts of the results, one after the other. */
  function Appended(results: seq<ChatResult>): string {
    if results == [] then ""
    else (if results[0].text.Some? then results[0].text.value else "") + Appended(results[1..])
  }

  /** Without a terminal snapshot the assembled text is everything the worker wrote. */
  lemma {:induction false} TextIsAppended(results: seq<ChatResult>, text: string)
    requires forall j | 0 <= j < |results| :: !IsSnapshot(results[j])
    ensures Text(results, text) == text + Appended(results)
    decreases results
  {
    if results == [] {
      assert text + "" == text;
    } else {
      TextIsAppended(results[1..], TextAfter(text, results[0]));
      var first := if results[0].text.Some? then results[0].text.value else "";
      assert TextAfter(text, results[0]) == text + first;
      Assoc(text, first, Appended(results[1..]));
    }
  }

  /** Otherwise it is the last snapshot and everything written after it. */
  lemma {:induction false} SnapshotIsTheText(results: seq<ChatResult>, k: nat, text: string)
    requires k < |results| && IsSnapshot(results[k])
    requires forall j | k < j < |results| :: !IsSnapshot(results[j])
    ensures Text(results, text) == results[k].text.value + Appended(results[k + 1..])
    decreases results
  {
    if k == 0 {
      TextIsAppended(results[1..], results[0].text.value);
    } else {
      SnapshotIsTheText(results[1..], k - 1, TextAfter(text, results[0]));
      assert results[1..][k..] == results[k + 1..];
    }
  }

  // ----- Tool calls -----

  /**
   Each call id yields one contiguous START/ARGS/END triple, with the name and the arguments of its first
   occurrence, in order.
   */
  lemma EachCallOnce(items: seq<Item>, m: MessageId)
    ensures var calls := Calls(Accepted(items, ""));
      var tools, firsts := ToolEvents(Converted(items, "", {}, false, m)), FirstOccurrences(calls, |calls|);
      && |tools| == 3 * |firsts|
      && forall i | 0 <= i < |firsts| ::
           && tools[3 * i] == ToolStart(firsts[i].id, firsts[i].name)
           && tools[3 * i + 1] == ToolArgs(firsts[i].id, firsts[i].args)
           && tools[3 * i + 2] == ToolEnd(firsts[i].id)
    ensures Contiguous(Converted(items, "", {}, false, m))
  {
    var calls := Calls(Accepted(items, ""));
    ToolsAreFresh(items, "", {}, false, m);
    FreshAreFirst(calls);
    var firsts := FirstOccurrences(calls, |calls|);
    TriplesLength(firsts);
    forall i | 0 <= i < |firsts|
      ensures Triples(firsts)[3 * i] == ToolStart(firsts[i].id, firsts[i].name)
      ensures Triples(firsts)[3 * i + 1] == ToolArgs(firsts[i].id, firsts[i].args)
      ensures Triples(firsts)[3 * i + 2] == ToolEnd(firsts[i].id)
    {
      TriplesAt(firsts, i);
    }
  }

  lemma {:induction false} TriplesLength(calls: seq<Call>)
    ensures |Triples(calls)| == 3 * |calls|
    decreases calls
  {
    if calls != [] {
      TriplesLength(calls[1..]);
    }
  }

  lemma {:induction false} TriplesAt(calls: seq<Call>, i: nat)
    requires i < |calls|
    ensures |Triples(calls)| == 3 * |calls|
    ensures Triples(calls)[3 * i] == ToolStart(calls[i].id, calls[i].name)
    ensures Triples(calls)[3 * i + 1] == ToolArgs(calls[i].id, calls[i].args)
    ensures Triples(calls)[3 * i + 2] == ToolEnd(calls[i].id)
    decreases calls
  {
    TriplesLength(calls);
    TriplesLength(calls[1..]);
    if i > 0 {
      TriplesAt(calls[1..], i - 1);
    }
  }

  lemma {:induction false} ToolsAreFresh(items: seq<Item>, text: string, seen: set<string>, done: bool, m: MessageId)
    ensures ToolEvents(Converted(items, text, seen, done, m)) == Triples(Fresh(Calls(Accepted(items, text)), seen))
    ensures Contiguous(Converted(items, text, seen, done, m))
    decreases items
  {
    if Stops(items, text) {
      ToolEventsConcat(Closing(text, m), ErrorEvents(Failure(items, text, done)));
      ContiguousConcat(Closing(text, m), ErrorEvents(Failure(items, text, done)));
    } else if items[0].Data? {
      var r := items[0].result.value;
      var next, seen' := TextAfter(text, r), seen + Ids(r.calls);
      ToolsAreFresh(items[1..], next, seen', done || r.done, m);
      ResultOnly(text, r, seen, m);
      ToolEventsConcat(ResultEvents(text, r, seen, m), Converted(items[1..], next, seen', done || r.done, m));
      ContiguousConcat(ResultEvents(text, r, seen, m), Converted(items[1..], next, seen', done || r.done, m));
      var rest := Calls(Accepted(items[1..], next));
      FreshSplits(r.calls, rest, seen);
      TriplesConcat(Fresh(r.calls, seen), Fresh(rest, seen'));
    } else {
      ToolsAreFresh(items[1..], text, seen, done, m);
    }
  }

  lemma {:induction false} TriplesConcat(xs: seq<Call>, ys: seq<Call>)
    ensures Triples(xs + ys) == Triples(xs) + Triples(ys)
    decreases xs
  {
    if xs == [] {
      assert xs + ys == ys;
    } else {
      assert (xs + ys)[1..] == xs[1..] + ys;
      TriplesConcat(xs[1..], ys);
    }
  }

  lemma {:induction false} FreshSplits(xs: seq<Call>, ys: seq<Call>, seen: set<string>)
    ensures Fresh(xs + ys, seen) == Fresh(xs, seen) + Fresh(ys, seen + Ids(xs))
    decreases xs
  {
    if xs == [] {
      assert xs + ys == ys && seen + Ids(xs) == seen;
    } else {
      assert (xs + ys)[1..] == xs[1..] + ys;
      var seen' := seen + {xs[0].id};
      assert seen + Ids(xs) == seen' + Ids(xs[1..]) by {
        assert xs == [xs[0]] + xs[1..];
      }
      FreshSplits(xs[1..], ys, seen');
      if xs[0].id in seen {
        assert seen' == seen;
      }
    }
  }

  lemma FreshAreFirst(calls: seq<Call>)
    ensures Fresh(calls, {}) == FirstOccurrences(calls, |calls|)
  {
    FreshPrefix(calls, |calls|);
    assert calls[..|calls|] == calls;
  }

  lemma {:induction false} FreshPrefix(calls: seq<Call>, n: nat)
    requires n <= |calls|
    ensures Fresh(calls[..n], {}) == FirstOccurrences(calls, n)
  {
    if n > 0 {
      FreshPrefix(calls, n - 1);
      var before, last := calls[..n - 1], calls[n - 1];
      assert calls[..n] == before + [last];
      FreshSplits(before, [last], {});
      assert {} + Ids(before) == Ids(before);
      assert last.id in Ids(before) <==> exists j | 0 <= j < n - 1 :: calls[j].id == last.id by {
        assert forall j | 0 <= j < n - 1 :: before[j] == calls[j];
      }
    }
  }

  // ----- Errors and brackets -----

  lemma {:induction false} ErrorComesLast(
    items: seq<Item>, text: string, seen: set<string>, done: bool, m: MessageId)
    returns (body: seq<Event>)
    ensures Converted(items, text, seen, done, m) == body + ErrorEvents(Verdict(items, text, done))
    ensures NoTerminal(body)
    decreases items
  {
    if Stops(items, text) {
      body := Closing(text, m);
    } else if items[0].Data? {
      var r := items[0].result.value;
      var rest := ErrorComesLast(items[1..], TextAfter(text, r), seen + Ids(r.calls), done || r.done, m);
      ResultOnly(text, r, seen, m);
      Assoc(ResultEvents(text, r, seen, m), rest, ErrorEvents(Verdict(items, text, done)));
      body := ResultEvents(text, r, seen, m) + rest;
    } else {
      body := ErrorComesLast(items[1..], text, seen, done, m);
    }
  }

  /** The converted stream may feed a run: its text is closed by the time it fails or ends. */
  lemma {:induction false} ConvertedFeeds(items: seq<Item>, text: string, seen: set<string>, done: bool, m: MessageId)
    ensures Feeds(Converted(items, text, seen, done, m), BracketOf(text), m)
    decreases items
  {
    if Stops(items, text) {
      var errors := ErrorEvents(Failure(items, text, done));
      assert Feeds(errors, Closed, m) && Feeds(errors, Idle, m);
      FeedsAfter(Closing(text, m), errors, BracketOf(text), m);
    } else if items[0].Data? {
      var r := items[0].result.value;
      var next, seen' := TextAfter(text, r), seen + Ids(r.calls);
      ConvertedFeeds(items[1..], next, seen', done || r.done, m);
      ResultOnly(text, r, seen, m);
      FeedsAfter(
        ResultEvents(text, r, seen, m), Converted(items[1..], next, seen', done || r.done, m), BracketOf(text), m);
    } else {
      ConvertedFeeds(items[1..], text, seen, done, m);
    }
  }

  // ----- When a stream succeeds, said of the items themselves -----

  /** The text after the first k items: a terminal text replaces it, any other text is appended. */
  function TextUpTo(items: seq<Item>, k: nat): string
    requires k <= |items|
  {
    if k == 0 then ""
    else match items[k - 1]
      case Data(Some(ChatResult(Some(t), _, done))) => if done then t else TextUpTo(items, k - 1) + t
      case _ => TextUpTo(items, k - 1)
  }

  /** The item neither ends the stream, nor fails to decode, nor contradicts the text before it. */
  predicate GoesOn(items: seq<Item>, i: nat)
    requires i < |items|
  {
    match items[i]
    case End(_) => false
    case Data(None) => false
    case Data(Some(ChatResult(Some(t), _, true))) => TextUpTo(items, i) <= t
    case _ => true
  }

  predicate RunsTo(items: seq<Item>, k: nat) {
    k <= |items| && forall i | 0 <= i < k :: GoesOn(items, i)
  }

  predicate IsDone(item: Item) { item.Data? && item.result.Some? && item.result.value.done }

  predicate SawDone(items: seq<Item>, k: nat)
    requires k <= |items|
  {
    exists i | 0 <= i < k :: IsDone(items[i])
  }

  /** All items, or those up to an END without failure, go on, and one of them is done. */
  predicate SucceedsAt(items: seq<Item>, k: nat) {
    RunsTo(items, k) && (k == |items| || items[k] == End(None)) && SawDone(items, k)
  }

  /** The items up to k go on, and what comes then amounts to this failure. */
  predicate FailsAt(items: seq<Item>, k: nat, code: ErrorCode) {
    && RunsTo(items, k)
    && match code
       case InvalidStreamItem => k < |items| && items[k] == Data(None)
       case InconsistentTerminalSnapshot =>
         && k < |items| && IsDone(items[k]) && items[k].result.value.text.Some?
         && !(TextUpTo(items, k) <= items[k].result.value.text.value)
       case IncompleteStream => (k == |items| || items[k].End?) && !SawDone(items, k)
       case StreamFailure(code) => k < |items| && items[k] == End(Some(code)) && SawDone(items, k)
       case _ => false
  }

  ghost predicate Succeeds(items: seq<Item>) { exists k :: SucceedsAt(items, k) }

  ghost predicate Fails(items: seq<Item>, code: ErrorCode) { exists k :: FailsAt(items, k, code) }

  /** Items that go on only add to the text and to what was seen. */
  lemma {:induction false} VerdictFrom(items: seq<Item>, k: nat)
    requires RunsTo(items, k)
    ensures Verdict(items, "", false) == Verdict(items[k..], TextUpTo(items, k), SawDone(items, k))
    ensures Accepted(items, "") == Results(items[..k]) + Accepted(items[k..], TextUpTo(items, k))
  {
    if k == 0 {
      assert items[0..] == items && items[..0] == [];
    } else {
      VerdictFrom(items, k - 1);
      var rest := items[k - 1..];
      assert rest[0] == items[k - 1] && rest[1..] == items[k..];
      assert GoesOn(items, k - 1);
      assert SawDone(items, k) <==> SawDone(items, k - 1) || IsDone(items[k - 1]);
      assert items[..k][..k - 1] == items[..k - 1];
      if items[k - 1].Data? {
        Assoc(Results(items[..k - 1]), [items[k - 1].result.value], Accepted(items[k..], TextUpTo(items, k)));
      }
    }
  }

  /** The results among the items, in order. */
  function Results(items: seq<Item>): seq<ChatResult> {
    if items == [] then []
    else
      var last := items[|items| - 1];
      Results(items[..|items| - 1]) + if last.Data? && last.result.Some? then [last.result.value] else []
  }

  lemma StopsUnlessGoesOn(items: seq<Item>, k: nat)
    requires k < |items|
    ensures Stops(items[k..], TextUpTo(items, k)) <==> !GoesOn(items, k)
  {
    assert items[k..][0] == items[k];
    match items[k] {
      case Data(Some(ChatResult(Some(t), _, true))) =>
        assert Mismatched(TextUpTo(items, k), items[k].result.value) <==> !(TextUpTo(items, k) <= t);
      case _ =>
    }
  }

  lemma {:induction false} StopExists(items: seq<Item>, from: nat) returns (k: nat)
    requires RunsTo(items, from)
    ensures RunsTo(items, k) && Stops(items[k..], TextUpTo(items, k))
    decreases |items| - from
  {
    if from == |items| {
      k := from;
      assert items[k..] == [];
    } else if GoesOn(items, from) {
      k := StopExists(items, from + 1);
    } else {
      k := from;
      StopsUnlessGoesOn(items, k);
    }
  }

  /** The failure at the item where the stream stops. */
  lemma VerdictAt(items: seq<Item>, k: nat)
    requires RunsTo(items, k) && Stops(items[k..], TextUpTo(items, k))
    ensures Verdict(items, "", false) == None <==> SucceedsAt(items, k)
    ensures forall code :: Verdict(items, "", false) == Some(code) <==> FailsAt(items, k, code)
    ensures Accepted(items, "") == Results(items[..k])
  {
    VerdictFrom(items, k);
    assert k < |items| ==> items[k..][0] == items[k];
    assert Results(items[..k]) + [] == Results(items[..k]);
  }

  lemma StopIsOne(items: seq<Item>, k: nat, stop: nat)
    requires RunsTo(items, k) && RunsTo(items, stop) && Stops(items[stop..], TextUpTo(items, stop))
    requires k == |items| || !GoesOn(items, k)
    ensures k == stop
  {
    if stop < |items| {
      StopsUnlessGoesOn(items, stop);
    }
  }

  /**
   The stream reports no failure exactly when the items succeed, and each failure exactly when the items
   fail in that way; what it takes are the results before the item where it stops.
   */
  lemma VerdictMeans(items: seq<Item>) returns (stop: nat)
    ensures Verdict(items, "", false) == None <==> Succeeds(items)
    ensures forall code :: Verdict(items, "", false) == Some(code) <==> Fails(items, code)
    ensures RunsTo(items, stop) && (stop == |items| || !GoesOn(items, stop))
    ensures Accepted(items, "") == Results(items[..stop])
  {
    stop := StopExists(items, 0);
    VerdictAt(items, stop);
    if stop < |items| {
      StopsUnlessGoesOn(items, stop);
    }
    forall k | SucceedsAt(items, k) ensures k == stop {
      StopIsOne(items, k, stop);
    }
    forall k, code | FailsAt(items, k, code) ensures k == stop {
      StopIsOne(items, k, stop);
    }
  }

  /** The stream ends with RUN_ERROR exactly when the items fail, with that failure's code, and has no other. */
  lemma ErrorIsSingleAndLast(items: seq<Item>, m: MessageId) returns (body: seq<Event>, error: Option<ErrorCode>)
    ensures Converted(items, "", {}, false, m) == body + ErrorEvents(error) && NoTerminal(body)
    ensures error.None? <==> Succeeds(items)
    ensures forall code :: error == Some(code) <==> Fails(items, code)
  {
    body := ErrorComesLast(items, "", {}, false, m);
    error := Verdict(items, "", false);
    var _ := VerdictMeans(items);
  }
}
