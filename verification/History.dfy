/**
 Converting a chat history between its HTTP form and its domain form, and validating the HTTP form.
 */
module History {
  import opened Base

  datatype Json =
    | Null
    | Str(text: string)
    | Scalar(repr: string)
    | Array(items: seq<Json>)
    | Object(keys: seq<string>, values: seq<Json>)

  /** The value holds an execution directive at any depth. */
  predicate HasDirective(j: Json) {
    match j
    case Array(items) => exists i | 0 <= i < |items| :: HasDirective(items[i])
    case Object(keys, values) =>
      || "tool_execution_requests" in keys || "toolExecutionRequests" in keys
      || exists i | 0 <= i < |values| :: HasDirective(values[i])
    case _ => false
  }

  /** The value is `j` or somewhere inside it. */
  predicate Within(v: Json, j: Json)
    decreases j
  {
    || v == j
    || (match j
        case Array(items) => exists i | 0 <= i < |items| :: Within(v, items[i])
        case Object(_, values) => exists i | 0 <= i < |values| :: Within(v, values[i])
        case _ => false)
  }

  predicate IsDirective(v: Json) {
    v.Object? && ("tool_execution_requests" in v.keys || "toolExecutionRequests" in v.keys)
  }

  /** An execution directive is found wherever it hides, and nothing else is taken for one. */
  lemma {:induction false} DirectiveAtAnyDepth(j: Json)
    ensures HasDirective(j) <==> exists v :: Within(v, j) && IsDirective(v)
    decreases j
  {
    var parts := match j case Array(items) => items case Object(_, values) => values case _ => [];
    forall i | 0 <= i < |parts| ensures HasDirective(parts[i]) <==> exists v :: Within(v, parts[i]) && IsDirective(v) {
      DirectiveAtAnyDepth(parts[i]);
    }
    if IsDirective(j) {
      assert Within(j, j);
    }
    if i :| 0 <= i < |parts| && HasDirective(parts[i]) {
      var v :| Within(v, parts[i]) && IsDirective(v);
      assert Within(v, j);
    }
  }

  datatype Role = System | User | Assistant | Tool

  datatype ImageSource = Url(value: string) | Base64(value: string)
  datatype Image = Image(contentType: string, source: ImageSource)

  datatype Call = Call(id: string, name: string, args: Json)

  // The HTTP form.
  datatype HttpResult = HttpResult(id: string, name: Option<string>, result: Json, isError: bool)
  datatype Content =
    | Text(text: string) | Calls(calls: seq<Call>) | Results(results: seq<HttpResult>) | Picture(image: Image)
  datatype HttpMessage = HttpMessage(role: Role, content: Content, toolCallId: Option<string>)

  // The domain form.
  datatype DomainResult = DomainResult(id: string, name: string, content: Json, isError: bool)
  datatype DomainMessage = DomainMessage(
    role: Role, content: Json, calls: seq<Call>, results: seq<DomainResult>, directive: bool)

  // ----- Images -----

  function EncodeImage(image: Image): Json {
    var source := match image.source
      case Url(v) => Object(["url"], [Str(v)])
      case Base64(v) => Object(["base64"], [Str(v)]);
    Object(["image"], [Object(["contentType", "source"], [Str(image.contentType), source])])
  }

  function DecodeSource(j: Json): Option<ImageSource> {
    if j.Object? && |j.keys| == |j.values| == 1 && j.values[0].Str? then
      if j.keys[0] == "url" then Some(Url(j.values[0].text))
      else if j.keys[0] == "base64" then Some(Base64(j.values[0].text))
      else None
    else None
  }

  function DecodeImage(j: Json): Option<Image> {
    if j.Object? && j.keys == ["image"] && |j.values| == 1 then
      var payload := j.values[0];
      if payload.Object? && payload.keys == ["contentType", "source"] && |payload.values| == 2 && payload.values[0].Str?
        && DecodeSource(payload.values[1]).Some?
      then Some(Image(payload.values[0].text, DecodeSource(payload.values[1]).value))
      else None
    else None
  }

  lemma {:induction false} ImageRoundTrip(image: Image)
    ensures DecodeImage(EncodeImage(image)) == Some(image)
    ensures !HasDirective(EncodeImage(image)) && !EncodeImage(image).Str?
  {
    var payload := EncodeImage(image).values[0];
    assert !HasDirective(payload.values[1].values[0]);
    assert !HasDirective(payload.values[1]);
    assert !HasDirective(payload);
  }

  // ----- HTTP to domain -----

  predicate IsSpace(c: char) {
    var n := c as int;
    || 9 <= n <= 13 || n == 0x20 || n == 0x85 || n == 0xA0 || n == 0x1680 || 0x2000 <= n <= 0x200A
    || n == 0x2028 || n == 0x2029 || n == 0x202F || n == 0x205F || n == 0x3000
  }

  /** Nothing is left of the string when it is trimmed. */
  predicate Blank(s: string) { forall i | 0 <= i < |s| :: IsSpace(s[i]) }

  predicate DistinctIds(calls: seq<Call>) {
    forall i, j | 0 <= i < j < |calls| :: calls[i].id != calls[j].id
  }

  predicate ValidCalls(calls: seq<Call>) {
    && calls != [] && DistinctIds(calls)
    && forall i | 0 <= i < |calls| :: !Blank(calls[i].id) && !Blank(calls[i].name)
  }

  /** The results answer the calls: each call once, in any order, under its name if one is given. */
  predicate Matches(calls: seq<Call>, results: seq<HttpResult>) {
    && |results| == |calls| && results != []
    && (forall i, j | 0 <= i < j < |results| :: results[i].id != results[j].id)
    && forall i | 0 <= i < |results| ::
         && NameOf(calls, results[i].id).Some?
         && (results[i].name.Some? ==> results[i].name == NameOf(calls, results[i].id))
  }

  /** The name of the call with this id. */
  function NameOf(calls: seq<Call>, id: string): Option<string> {
    if calls == [] then None else if calls[0].id == id then Some(calls[0].name) else NameOf(calls[1..], id)
  }

  function FilledResult(calls: seq<Call>, r: HttpResult): DomainResult {
    var expected := NameOf(calls, r.id);
    DomainResult(r.id, if r.name.Some? then r.name.value else if expected.Some? then expected.value else "",
                 r.result, r.isError)
  }

  function FilledResults(calls: seq<Call>, results: seq<HttpResult>): (r: seq<DomainResult>)
    ensures |r| == |results| && forall i | 0 <= i < |r| :: r[i] == FilledResult(calls, results[i])
  {
    seq(|results|, i requires 0 <= i < |results| => FilledResult(calls, results[i]))
  }

  /** One message, with the calls that wait for their results before and after it. */
  function MessageToDomain(m: HttpMessage, pending: seq<Call>): Option<(DomainMessage, seq<Call>)> {
    if m.toolCallId.Some? then None
    else match (m.role, m.content)
      case (User, Text(text)) => if pending == [] then Some((Plain(User, Str(text)), [])) else None
      case (User, Picture(image)) => if pending == [] then Some((Plain(User, EncodeImage(image)), [])) else None
      case (Assistant, Text(text)) => if pending == [] then Some((Plain(Assistant, Str(text)), [])) else None
      case (Assistant, Calls(calls)) =>
        if pending == [] && ValidCalls(calls)
        then Some((DomainMessage(Assistant, Null, calls, [], false), calls)) else None
      case (Tool, Results(results)) =>
        if Matches(pending, results)
        then Some((DomainMessage(Tool, Null, [], FilledResults(pending, results), false), [])) else None
      case _ => None
  }

  function Plain(role: Role, content: Json): DomainMessage { DomainMessage(role, content, [], [], false) }

  function ToDomain(messages: seq<HttpMessage>, pending: seq<Call>): Option<seq<DomainMessage>>
    decreases messages
  {
    if messages == [] then (if pending == [] then Some([]) else None)
    else if messages[0].role == System then ToDomain(messages[1..], pending)
    else match MessageToDomain(messages[0], pending)
      case None => None
      case Some((m, pending')) =>
        match ToDomain(messages[1..], pending')
        case None => None
        case Some(rest) => Some([m] + rest)
  }

  // ----- Domain to HTTP -----

  predicate MessageHasDirective(m: DomainMessage) {
    || m.directive || HasDirective(m.content)
    || (exists i | 0 <= i < |m.calls| :: HasDirective(m.calls[i].args))
    || (exists i | 0 <= i < |m.results| :: HasDirective(m.results[i].content))
  }

  function ToHttpResults(results: seq<DomainResult>): (r: seq<HttpResult>)
    ensures |r| == |results|
    ensures forall i | 0 <= i < |r| ::
      r[i] == HttpResult(results[i].id, Some(results[i].name), results[i].content, results[i].isError)
  {
    seq(|results|, i requires 0 <= i < |results| =>
      HttpResult(results[i].id, Some(results[i].name), results[i].content, results[i].isError))
  }

  /** `Some(None)` is a message that is hidden from the client. */
  function MessageToHttp(m: DomainMessage): Option<Option<HttpMessage>> {
    if MessageHasDirective(m) then None
    else match m.role
      case System => if m.calls == [] && m.results == [] then Some(None) else None
      case User =>
        if m.calls != [] || m.results != [] then None
        else if m.content.Str? then Some(Some(HttpMessage(User, Text(m.content.text), None)))
        else if DecodeImage(m.content).Some? then
          Some(Some(HttpMessage(User, Picture(DecodeImage(m.content).value), None)))
        else None
      case Assistant =>
        if m.results != [] then None
        else if m.calls != [] then
          (if m.content.Null? then Some(Some(HttpMessage(Assistant, Calls(m.calls), None))) else None)
        else if m.content.Str? then Some(Some(HttpMessage(Assistant, Text(m.content.text), None)))
        else None
      case Tool =>
        if m.calls != [] || m.results == [] then None
        else Some(Some(HttpMessage(Tool, Results(ToHttpResults(m.results)), None)))
  }

  /** The results of the TOOL messages a history begins with, and how many of them there are. */
  function Run(history: seq<DomainMessage>): Option<(seq<HttpResult>, nat)>
    ensures Run(history).Some? ==> Run(history).value.1 <= |history|
    ensures Run(history).Some? && history != [] && history[0].role == Tool ==> Run(history).value.1 > 0
  {
    if history == [] || history[0].role != Tool then Some(([], 0))
    else match MessageToHttp(history[0])
      case Some(Some(m)) =>
        (match Run(history[1..])
         case Some((results, n)) => Some((ToHttpResults(history[0].results) + results, n + 1))
         case None => None)
      case _ => None
  }

  function ToHttp(history: seq<DomainMessage>): Option<seq<HttpMessage>>
    decreases |history|
  {
    if history == [] then Some([])
    else if history[0].role == Tool then
      match Run(history)
      case None => None
      case Some((results, n)) =>
        (match ToHttp(history[n..])
         case None => None
         case Some(rest) => Some([HttpMessage(Tool, Results(results), None)] + rest))
    else match MessageToHttp(history[0])
      case None => None
      case Some(m) =>
        (match ToHttp(history[1..])
         case None => None
         case Some(rest) => Some((if m.Some? then [m.value] else []) + rest))
  }

  function Prepend<T>(xs: seq<T>, o: Option<seq<T>>): (r: Option<seq<T>>)
    ensures xs == [] ==> r == o
    ensures o == Some([]) ==> r == Some(xs)
  {
    assert o.Some? ==> [] + o.value == o.value && xs + [] == xs;
    if o.Some? then Some(xs + o.value) else None
  }

  lemma PrependTwice<T>(xs: seq<T>, ys: seq<T>, o: Option<seq<T>>)
    ensures Prepend(xs, Prepend(ys, o)) == Prepend(xs + ys, o)
  {
    if o.Some? {
      Assoc(xs, ys, o.value);
    }
  }

  /** A message that is not a TOOL message is converted on its own. */
  lemma {:induction false} HeadToHttp(m: DomainMessage, rest: seq<DomainMessage>)
    requires m.role != Tool
    ensures ToHttp([m] + rest) ==
      if MessageToHttp(m).None? then None
      else Prepend(if MessageToHttp(m).value.Some? then [MessageToHttp(m).value.value] else [], ToHttp(rest))
  {
    assert ([m] + rest)[1..] == rest;
  }

  lemma {:induction false} RunConcat(xs: seq<DomainMessage>, ys: seq<DomainMessage>)
    requires ys != [] ==> ys[0].role != Tool
    ensures Run(xs + ys) == Run(xs)
    decreases xs
  {
    if xs == [] {
      assert xs + ys == ys;
    } else {
      assert (xs + ys)[1..] == xs[1..] + ys;
      RunConcat(xs[1..], ys);
    }
  }

  /** A history is converted piece by piece, where no piece begins in the middle of a run of TOOL messages. */
  lemma {:induction false} ToHttpConcat(xs: seq<DomainMessage>, ys: seq<DomainMessage>)
    requires ys != [] ==> ys[0].role != Tool
    ensures ToHttp(xs + ys) == if ToHttp(xs).None? then None else Prepend(ToHttp(xs).value, ToHttp(ys))
    decreases |xs|
  {
    if xs == [] {
      assert xs + ys == ys;
    } else if xs[0].role == Tool {
      RunConcat(xs, ys);
      if Run(xs).Some? {
        var (results, n) := Run(xs).value;
        assert (xs + ys)[n..] == xs[n..] + ys;
        ToHttpConcat(xs[n..], ys);
        if ToHttp(xs[n..]).Some? {
          PrependTwice([HttpMessage(Tool, Results(results), None)], ToHttp(xs[n..]).value, ToHttp(ys));
        }
      }
    } else {
      var m, rest := MessageToHttp(xs[0]), xs[1..];
      assert xs == [xs[0]] + rest && xs + ys == [xs[0]] + (rest + ys);
      HeadToHttp(xs[0], rest);
      HeadToHttp(xs[0], rest + ys);
      ToHttpConcat(rest, ys);
      if m.Some? && ToHttp(rest).Some? {
        PrependTwice(if m.value.Some? then [m.value.value] else [], ToHttp(rest).value, ToHttp(ys));
      }
    }
  }

  // ----- The round trip -----

  /** No call argument and no result holds an execution directive. */
  predicate Free(m: HttpMessage) {
    match m.content
    case Calls(calls) => forall i | 0 <= i < |calls| :: !HasDirective(calls[i].args)
    case Results(results) => forall i | 0 <= i < |results| :: !HasDirective(results[i].result)
    case _ => true
  }

  predicate AllFree(messages: seq<HttpMessage>) {
    forall i | 0 <= i < |messages| && messages[i].role != System :: Free(messages[i])
  }

  function FilledMessage(m: HttpMessage, pending: seq<Call>): HttpMessage {
    if m.content.Results?
    then m.(content := Results(ToHttpResults(FilledResults(pending, m.content.results))))
    else m
  }

  /** The non-system messages, every tool result with its name. */
  function Filled(messages: seq<HttpMessage>, pending: seq<Call>): seq<HttpMessage>
    decreases messages
  {
    if messages == [] then []
    else if messages[0].role == System then Filled(messages[1..], pending)
    else
      [FilledMessage(messages[0], pending)]
      + Filled(messages[1..], if messages[0].content.Calls? then messages[0].content.calls else [])
  }

  lemma {:induction false} AloneToHttp(m: DomainMessage)
    ensures ToHttp([m]) == match MessageToHttp(m)
                           case None => None
                           case Some(None) => Some([])
                           case Some(Some(shown)) => Some([shown])
  {
    assert [m] + [] == [m] && [m][1..] == [];
    if m.role == Tool {
      assert Run([]) == Some(([], 0));
      assert ToHttpResults(m.results) + [] == ToHttpResults(m.results);
      if MessageToHttp(m).Some? {
        var shown := MessageToHttp(m).value.value;
        assert Run([m]) == Some((ToHttpResults(m.results), 1)) && [shown] + [] == [shown];
      }
    } else {
      HeadToHttp(m, []);
    }
  }

  /** One message there and back: it is refused on the way back exactly when it holds a directive. */
  lemma {:induction false} MessageRoundTrip(m: HttpMessage, pending: seq<Call>)
    requires MessageToDomain(m, pending).Some?
    ensures var (d, pending') := MessageToDomain(m, pending).value;
      && MessageToHttp(d) == (if Free(m) then Some(Some(FilledMessage(m, pending))) else None) && d.role == m.role
      && pending' == (if m.content.Calls? then m.content.calls else [])
      && ToHttp([d]) == if Free(m) then Some([FilledMessage(m, pending)]) else None
  {
    var (d, _) := MessageToDomain(m, pending).value;
    if m.content.Picture? {
      ImageRoundTrip(m.content.image);
    }
    if m.content.Results? {
      var results := m.content.results;
      assert forall i | 0 <= i < |results| :: d.results[i].content == results[i].result;
      assert Free(m) <==> !MessageHasDirective(d);
    }
    AloneToHttp(d);
  }

  lemma {:induction false} NoResultsWithoutCalls(messages: seq<HttpMessage>)
    requires ToDomain(messages, []).Some?
    ensures var h := ToDomain(messages, []).value; h != [] ==> h[0].role != Tool
    decreases messages
  {
    if messages != [] && messages[0].role == System {
      NoResultsWithoutCalls(messages[1..]);
    }
  }

  lemma AllFreeHead(m: HttpMessage, rest: seq<HttpMessage>)
    ensures AllFree([m] + rest) <==> (m.role == System || Free(m)) && AllFree(rest)
  {
    var all := [m] + rest;
    if AllFree(all) {
      assert all[0] == m && forall i | 0 <= i < |rest| :: rest[i] == all[i + 1];
    }
  }

  /**
   What the client gets back is what it sent, without system messages and with the names filled in; it
   gets nothing back exactly when what it sent holds an execution directive.
   */
  lemma {:induction false} RoundTrip(messages: seq<HttpMessage>, pending: seq<Call>)
    requires ToDomain(messages, pending).Some?
    ensures ToHttp(ToDomain(messages, pending).value) ==
      if AllFree(messages) then Some(Filled(messages, pending)) else None
    ensures |Filled(messages, pending)| == |ToDomain(messages, pending).value|
    decreases messages
  {
    if messages != [] {
      var m, later := messages[0], messages[1..];
      assert messages == [m] + later;
      AllFreeHead(m, later);
      if m.role == System {
        RoundTrip(later, pending);
      } else {
        MessageRoundTrip(m, pending);
        var (d, pending') := MessageToDomain(m, pending).value;
        RoundTrip(later, pending');
        var rest := ToDomain(later, pending').value;
        if d.role == Tool {
          NoResultsWithoutCalls(later);
          ToHttpConcat([d], rest);
        } else {
          HeadToHttp(d, rest);
        }
      }
    }
  }

  // ----- The round trip, said of the messages themselves -----

  function NonSystem(messages: seq<HttpMessage>): seq<HttpMessage> {
    if messages == [] then []
    else (if messages[0].role == System then [] else [messages[0]]) + NonSystem(messages[1..])
  }

  /** The calls that message k answers. */
  function CallsBefore(sent: seq<HttpMessage>, k: nat, pending: seq<Call>): seq<Call>
    requires k < |sent|
  {
    if k == 0 then pending else if sent[k - 1].content.Calls? then sent[k - 1].content.calls else []
  }

  /** A call with this id has this name. */
  predicate IsNamed(calls: seq<Call>, id: string, name: string) {
    exists j | 0 <= j < |calls| :: calls[j].id == id && calls[j].name == name
  }

  /** What the domain form of a message holds. */
  predicate Carried(calls: seq<Call>, sent: HttpMessage, d: DomainMessage) {
    && d.role == sent.role && !d.directive
    && match sent.content
       case Text(text) => d.content == Str(text) && d.calls == [] && d.results == []
       case Picture(image) => DecodeImage(d.content) == Some(image) && d.calls == [] && d.results == []
       case Calls(own) => d.content == Null && d.calls == own && d.results == []
       case Results(results) =>
         && d.content == Null && d.calls == [] && |d.results| == |results|
         && forall i | 0 <= i < |results| ::
              && d.results[i].id == results[i].id && d.results[i].content == results[i].result
              && d.results[i].isError == results[i].isError && IsNamed(calls, results[i].id, d.results[i].name)
  }

  /** What the client gets back for a message: itself, every result with the name of its call. */
  predicate Echo(calls: seq<Call>, sent: HttpMessage, back: HttpMessage) {
    && back.role == sent.role && back.toolCallId == sent.toolCallId
    && match sent.content
       case Results(results) =>
         && back.content.Results? && |back.content.results| == |results|
         && forall i | 0 <= i < |results| ::
              var r := back.content.results[i];
              && r.id == results[i].id && r.result == results[i].result && r.isError == results[i].isError
              && r.name.Some? && IsNamed(calls, results[i].id, r.name.value)
       case _ => back.content == sent.content
  }

  lemma {:induction false} NameOfIs(calls: seq<Call>, id: string)
    requires NameOf(calls, id).Some?
    ensures IsNamed(calls, id, NameOf(calls, id).value)
    decreases calls
  {
    if calls[0].id == id {
      assert calls[0].name == NameOf(calls, id).value;
    } else {
      NameOfIs(calls[1..], id);
      var j :| 0 <= j < |calls[1..]| && calls[1..][j].id == id && calls[1..][j].name == NameOf(calls, id).value;
      assert calls[j + 1].id == id;
    }
  }

  lemma {:induction false} MessageIsCarried(m: HttpMessage, pending: seq<Call>)
    requires MessageToDomain(m, pending).Some?
    ensures Carried(pending, m, MessageToDomain(m, pending).value.0)
    ensures Echo(pending, m, FilledMessage(m, pending))
  {
    if m.content.Picture? {
      ImageRoundTrip(m.content.image);
    }
    if m.content.Results? {
      forall i | 0 <= i < |m.content.results|
        ensures IsNamed(pending, m.content.results[i].id, FilledResult(pending, m.content.results[i]).name)
      {
        NameOfIs(pending, m.content.results[i].id);
      }
    }
  }

  /** Message k is carried and comes back, as the k-th of the messages sent. */
  predicate BothWays(
    sent: seq<HttpMessage>, h: seq<DomainMessage>, back: seq<HttpMessage>, k: nat, pending: seq<Call>)
  {
    && k < |sent| && |h| == |back| == |sent|
    && Carried(CallsBefore(sent, k, pending), sent[k], h[k]) && Echo(CallsBefore(sent, k, pending), sent[k], back[k])
  }

  lemma BothWaysLater(
    m: HttpMessage, sent: seq<HttpMessage>, d: DomainMessage, h: seq<DomainMessage>, b: HttpMessage,
    back: seq<HttpMessage>, k: nat, pending: seq<Call>)
    requires BothWays(sent, h, back, k, if m.content.Calls? then m.content.calls else [])
    ensures BothWays([m] + sent, [d] + h, [b] + back, k + 1, pending)
  {
    var all := [m] + sent;
    assert all[k + 1] == sent[k] && (k > 0 ==> all[k] == sent[k - 1]);
  }

  lemma BothWaysFirst(
    m: HttpMessage, sent: seq<HttpMessage>, d: DomainMessage, h: seq<DomainMessage>, b: HttpMessage,
    back: seq<HttpMessage>, pending: seq<Call>)
    requires Carried(pending, m, d) && Echo(pending, m, b) && |h| == |back| == |sent|
    ensures BothWays([m] + sent, [d] + h, [b] + back, 0, pending)
  {
  }

  /** The first message that is no system message, in its three forms, in front of the rest. */
  lemma {:induction false} Unfold(messages: seq<HttpMessage>, pending: seq<Call>)
    requires messages != [] && messages[0].role != System && ToDomain(messages, pending).Some?
    ensures MessageToDomain(messages[0], pending).Some?
    ensures var (d, pending') := MessageToDomain(messages[0], pending).value;
      && pending' == (if messages[0].content.Calls? then messages[0].content.calls else [])
      && ToDomain(messages[1..], pending').Some?
      && ToDomain(messages, pending).value == [d] + ToDomain(messages[1..], pending').value
      && NonSystem(messages) == [messages[0]] + NonSystem(messages[1..])
      && Filled(messages, pending) == [FilledMessage(messages[0], pending)] + Filled(messages[1..], pending')
  {
  }

  lemma {:induction false} EachIsCarried(messages: seq<HttpMessage>, pending: seq<Call>, k: nat)
    requires ToDomain(messages, pending).Some? && k < |NonSystem(messages)|
    ensures BothWays(NonSystem(messages), ToDomain(messages, pending).value, Filled(messages, pending), k, pending)
    decreases messages
  {
    var m, later := messages[0], messages[1..];
    if m.role == System {
      EachIsCarried(later, pending, k);
    } else {
      Unfold(messages, pending);
      var (d, pending') := MessageToDomain(m, pending).value;
      var sent, h, back := NonSystem(later), ToDomain(later, pending').value, Filled(later, pending');
      if k > 0 {
        EachIsCarried(later, pending', k - 1);
        BothWaysLater(m, sent, d, h, FilledMessage(m, pending), back, k - 1, pending);
      } else {
        MessageIsCarried(m, pending);
        SameLength(later, pending');
        BothWaysFirst(m, sent, d, h, FilledMessage(m, pending), back, pending);
      }
    }
  }

  lemma {:induction false} SameLength(messages: seq<HttpMessage>, pending: seq<Call>)
    requires ToDomain(messages, pending).Some?
    ensures |ToDomain(messages, pending).value| == |Filled(messages, pending)| == |NonSystem(messages)|
    decreases messages
  {
    if messages != [] {
      if messages[0].role == System {
        SameLength(messages[1..], pending);
      } else {
        SameLength(messages[1..], MessageToDomain(messages[0], pending).value.1);
      }
    }
  }

  /**
   An accepted list in domain form has one message for each that is no system message, with its role,
   content, calls and results, every result under the name of the call it answers.
   */
  lemma AcceptedIsCarried(messages: seq<HttpMessage>)
    requires ToDomain(messages, []).Some?
    ensures var sent, h := NonSystem(messages), ToDomain(messages, []).value;
      |h| == |sent| && forall k | 0 <= k < |sent| :: Carried(CallsBefore(sent, k, []), sent[k], h[k])
  {
    SameLength(messages, []);
    forall k | 0 <= k < |NonSystem(messages)|
      ensures Carried(CallsBefore(NonSystem(messages), k, []), NonSystem(messages)[k], ToDomain(messages, []).value[k])
    {
      EachIsCarried(messages, [], k);
    }
  }

  /** What comes back for it is, message by message, what was sent, with the names of the results. */
  lemma ComesBackAsSent(messages: seq<HttpMessage>)
    requires ToDomain(messages, []).Some? && ToHttp(ToDomain(messages, []).value).Some?
    ensures var sent, back := NonSystem(messages), ToHttp(ToDomain(messages, []).value).value;
      |back| == |sent| && forall k | 0 <= k < |sent| :: Echo(CallsBefore(sent, k, []), sent[k], back[k])
  {
    SameLength(messages, []);
    RoundTrip(messages, []);
    forall k | 0 <= k < |NonSystem(messages)|
      ensures Echo(CallsBefore(NonSystem(messages), k, []), NonSystem(messages)[k], Filled(messages, [])[k])
    {
      EachIsCarried(messages, [], k);
    }
  }

  lemma {:induction false} FilledAgain(m: HttpMessage, pending: seq<Call>)
    requires MessageToDomain(m, pending).Some?
    ensures MessageToDomain(FilledMessage(m, pending), pending) == MessageToDomain(m, pending)
    ensures Free(m) ==> Free(FilledMessage(m, pending))
  {
    if m.content.Results? {
      var filled := FilledResults(pending, m.content.results);
      assert FilledResults(pending, ToHttpResults(filled)) == filled;
    }
  }

  /** Converting what came back gives the same history again. */
  lemma {:induction false} Idempotent(messages: seq<HttpMessage>, pending: seq<Call>)
    requires ToDomain(messages, pending).Some?
    ensures ToDomain(Filled(messages, pending), pending) == ToDomain(messages, pending)
    ensures AllFree(messages) ==> AllFree(Filled(messages, pending))
    decreases messages
  {
    if messages == [] {
    } else if messages[0].role == System {
      Idempotent(messages[1..], pending);
    } else {
      var m, rest := messages[0], messages[1..];
      var (d, pending') := MessageToDomain(m, pending).value;
      Idempotent(rest, pending');
      FilledAgain(m, pending);
      var filled := [FilledMessage(m, pending)] + Filled(rest, pending');
      assert filled[1..] == Filled(rest, pending');
    }
  }

  // ----- The conversions as loops -----

  /** The names by call id, as the conversion keeps them while results are due. */
  ghost predicate NamesOf(names: map<string, string>, calls: seq<Call>) {
    && |names| == |calls|
    && forall id :: NameOf(calls, id) == if id in names then Some(names[id]) else None
  }

  lemma {:induction false} NameOfAppend(calls: seq<Call>, c: Call, id: string)
    ensures NameOf(calls + [c], id) ==
      if NameOf(calls, id).Some? then NameOf(calls, id) else if c.id == id then Some(c.name) else None
    decreases calls
  {
    if calls == [] {
      assert calls + [c] == [c];
    } else {
      assert (calls + [c])[1..] == calls[1..] + [c];
      NameOfAppend(calls[1..], c, id);
    }
  }

  lemma {:induction false} NameOfSome(calls: seq<Call>, id: string)
    ensures NameOf(calls, id).Some? <==> exists j | 0 <= j < |calls| :: calls[j].id == id
    decreases calls
  {
    if calls != [] {
      NameOfSome(calls[1..], id);
      if NameOf(calls[1..], id).Some? {
        var j :| 0 <= j < |calls[1..]| && calls[1..][j].id == id;
        assert calls[j + 1].id == id;
      }
    }
  }

  lemma {:induction false} NamesGrow(names: map<string, string>, calls: seq<Call>, c: Call)
    requires NamesOf(names, calls) && c.id !in names
    ensures NamesOf(names[c.id := c.name], calls + [c])
  {
    var names' := names[c.id := c.name];
    forall id ensures NameOf(calls + [c], id) == (if id in names' then Some(names'[id]) else None) {
      NameOfAppend(calls, c, id);
    }
  }

  method ConvertCalls(calls: seq<Call>) returns (ok: bool, names: map<string, string>)
    ensures ok <==> ValidCalls(calls)
    ensures ok ==> NamesOf(names, calls)
  {
    names := map[];
    if calls == [] {
      return false, names;
    }
    var i := 0;
    while i < |calls|
      invariant 0 <= i <= |calls| && NamesOf(names, calls[..i])
      invariant forall j | 0 <= j < i :: !Blank(calls[j].id) && !Blank(calls[j].name)
      invariant forall j, k | 0 <= j < k < i :: calls[j].id != calls[k].id
    {
      var call := calls[i];
      if Blank(call.id) || Blank(call.name) {
        return false, names;
      }
      NameOfSome(calls[..i], call.id);
      if call.id in names {
        return false, names;
      }
      assert forall j | 0 <= j < i :: calls[..i][j] == calls[j];
      NamesGrow(names, calls[..i], call);
      assert calls[..i + 1] == calls[..i] + [call];
      names, i := names[call.id := call.name], i + 1;
    }
    assert calls[..i] == calls;
    return true, names;
  }

  /** One result per pending call. Equal numbers and distinct ids leave no call without one. */
  method ConvertResults(results: seq<HttpResult>, names: map<string, string>, ghost calls: seq<Call>)
    returns (r: Option<seq<DomainResult>>)
    requires NamesOf(names, calls)
    ensures r.Some? <==> Matches(calls, results)
    ensures r.Some? ==> r.value == FilledResults(calls, results)
  {
    if results == [] || |names| != |results| {
      return None;
    }
    var seen: set<string>, converted: seq<DomainResult>, i := {}, [], 0;
    while i < |results|
      invariant 0 <= i <= |results|
      invariant forall id :: id in seen <==> exists j | 0 <= j < i :: results[j].id == id
      invariant forall j, k | 0 <= j < k < i :: results[j].id != results[k].id
      invariant forall j | 0 <= j < i ::
        results[j].id in names && (results[j].name.Some? ==> results[j].name.value == names[results[j].id])
      invariant |converted| == i && forall j | 0 <= j < i :: converted[j] == FilledResult(calls, results[j])
    {
      var result := results[i];
      if result.id !in names {
        assert NameOf(calls, results[i].id).None?;
        return None;
      }
      var expected := names[result.id];
      if result.id in seen || (result.name.Some? && result.name.value != expected) {
        assert NameOf(calls, results[i].id) == Some(expected);
        return None;
      }
      assert NameOf(calls, result.id) == Some(expected);
      seen := seen + {result.id};
      converted := converted + [DomainResult(
        result.id, if result.name.Some? then result.name.value else expected, result.result, result.isError)];
      i := i + 1;
    }
    assert forall j | 0 <= j < |results| :: NameOf(calls, results[j].id) == Some(names[results[j].id]);
    return Some(converted);
  }

  /** Results are due exactly while some calls are pending. */
  ghost predicate Due(names: Option<map<string, string>>, pending: seq<Call>) {
    if names.Some? then pending != [] && NamesOf(names.value, pending) else pending == []
  }

  method ConvertMessage(m: HttpMessage, names: Option<map<string, string>>, ghost pending: seq<Call>)
    returns (r: Option<DomainMessage>, names': Option<map<string, string>>, ghost pending': seq<Call>)
    requires Due(names, pending) && m.role != System
    ensures r.Some? <==> MessageToDomain(m, pending).Some?
    ensures r.Some? ==> MessageToDomain(m, pending) == Some((r.value, pending')) && Due(names', pending')
  {
    r, names', pending' := None, None, [];
    if m.toolCallId.Some? {
      return;
    }
    match (m.role, m.content) {
      case (User, Text(text)) =>
        if names.None? {
          r := Some(Plain(User, Str(text)));
        }
      case (User, Picture(image)) =>
        if names.None? {
          r := Some(Plain(User, EncodeImage(image)));
        }
      case (Assistant, Text(text)) =>
        if names.None? {
          r := Some(Plain(Assistant, Str(text)));
        }
      case (Assistant, Calls(calls)) =>
        if names.None? {
          var ok, byId := ConvertCalls(calls);
          if ok {
            r, names', pending' := Some(DomainMessage(Assistant, Null, calls, [], false)), Some(byId), calls;
          }
        }
      case (Tool, Results(results)) =>
        if names.Some? {
          var converted := ConvertResults(results, names.value, pending);
          if converted.Some? {
            r := Some(DomainMessage(Tool, Null, [], converted.value, false));
          }
        }
      case _ =>
    }
  }

  method RequestToDomain(messages: seq<HttpMessage>) returns (r: Option<seq<DomainMessage>>)
    ensures r == if ToDomain(messages, []) == Some([]) then None else ToDomain(messages, [])
  {
    var history: seq<DomainMessage>, names: Option<map<string, string>>, i := [], None, 0;
    ghost var pending: seq<Call> := [];
    assert messages[0..] == messages;
    while i < |messages|
      invariant 0 <= i <= |messages| && Due(names, pending)
      invariant Prepend(history, ToDomain(messages[i..], pending)) == ToDomain(messages, [])
    {
      var m := messages[i];
      assert messages[i..][1..] == messages[i + 1..];
      if m.role != System {
        var converted;
        converted, names, pending := ConvertMessage(m, names, pending);
        if converted.None? {
          return None;
        }
        PrependTwice(history, [converted.value], ToDomain(messages[i + 1..], pending));
        history := history + [converted.value];
      }
      i := i + 1;
    }
    assert messages[i..] == [];
    if names.Some? || history == [] {
      return None;
    }
    return Some(history);
  }

  method DomainHistoryToHttp(history: seq<DomainMessage>) returns (r: Option<seq<HttpMessage>>)
    ensures r == ToHttp(history)
  {
    var messages: seq<HttpMessage>, index := [], 0;
    assert history[0..] == history;
    while index < |history|
      invariant 0 <= index <= |history|
      invariant Prepend(messages, ToHttp(history[index..])) == ToHttp(history)
    {
      var rest := history[index..];
      if history[index].role != Tool {
        var m := MessageToHttp(history[index]);
        if m.None? {
          return None;
        }
        assert rest[1..] == history[index + 1..];
        PrependTwice(messages, if m.value.Some? then [m.value.value] else [], ToHttp(history[index + 1..]));
        if m.value.Some? {
          messages := messages + [m.value.value];
        } else {
          assert messages + [] == messages;
        }
        index := index + 1;
      } else {
        var converted, n := ConvertRun(rest);
        if converted.None? {
          return None;
        }
        var merged := HttpMessage(Tool, Results(converted.value), None);
        assert rest[n..] == history[index + n..];
        PrependTwice(messages, [merged], ToHttp(history[index + n..]));
        messages, index := messages + [merged], index + n;
      }
    }
    assert history[index..] == [];
    return Some(messages);
  }

  /** Merge the TOOL messages a history begins with. */
  method ConvertRun(history: seq<DomainMessage>) returns (r: Option<seq<HttpResult>>, n: nat)
    requires history != [] && history[0].role == Tool
    ensures r.None? <==> Run(history).None?
    ensures r.Some? ==> Run(history) == Some((r.value, n)) && 0 < n <= |history|
  {
    var results: seq<HttpResult> := [];
    n := 0;
    assert history[0..] == history;
    while n < |history| && history[n].role == Tool
      invariant 0 <= n <= |history|
      invariant Run(history) == Later(results, n, Run(history[n..]))
      invariant n == 0 ==> results == []
    {
      var m := MessageToHttp(history[n]);
      if !(m.Some? && m.value.Some? && m.value.value.content.Results?) {
        return None, n;
      }
      assert history[n..][1..] == history[n + 1..];
      LaterTwice(results, n, ToHttpResults(history[n].results), Run(history[n + 1..]));
      results, n := results + m.value.value.content.results, n + 1;
    }
    assert results + [] == results;
    return Some(results), n;
  }

  function Later(results: seq<HttpResult>, n: nat, o: Option<(seq<HttpResult>, nat)>)
    : (r: Option<(seq<HttpResult>, nat)>)
    ensures results == [] && n == 0 ==> r == o
  {
    assert o.Some? ==> [] + o.value.0 == o.value.0;
    if o.Some? then Some((results + o.value.0, n + o.value.1)) else None
  }

  lemma LaterTwice(xs: seq<HttpResult>, n: nat, ys: seq<HttpResult>, o: Option<(seq<HttpResult>, nat)>)
    ensures Later(xs, n, Later(ys, 1, o)) == Later(xs + ys, n + 1, o)
  {
    if o.Some? {
      Assoc(xs, ys, o.value.0);
    }
  }
}
