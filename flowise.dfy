/**
 * The chat adapter that forwards a host conversation to a Flowise prediction
 * endpoint and relays the answer back.
 *
 * The HTTP exchange is abstract: `Pipe` is given the server as a function
 * from the request it would post to the response it would get, or to the
 * exception that posting raised. JSON decoding is abstract too: a response
 * carries what `r.json()` gives, and each streamed line carries what
 * `json.loads` gives for it.
 *
 * `pipe` contains `yield`, so in the source it is a generator function: what
 * it produces is the sequence of yielded chunks together with the value of its
 * `return` statement (the generator's final return value). `Outcome` records
 * both, and the request passed to `requests.post`, if any.
 */
module Flowise {
  import opened Wrappers

  // ------------------------------------------------------------------
  // Values
  // ------------------------------------------------------------------

  /** A JSON value as Python's json module decodes it (numbers are integers here). */
  datatype Json =
    | JNull
    | JBool(b: bool)
    | JNum(n: int)
    | JStr(s: string)
    | JArr(items: seq<Json>)
    | JObj(fields: map<string, Json>)

  /** The name of the Python type a decoded value has, as error messages spell it. */
  function PyTypeName(v: Json): string
  {
    match v
    case JNull => "NoneType"
    case JBool(_) => "bool"
    case JNum(_) => "int"
    case JStr(_) => "str"
    case JArr(_) => "list"
    case JObj(_) => "dict"
  }

  /** One message of the host's request body: a JSON object with `role` and `content`. */
  type Message = map<string, Json>

  /** The host's request body: its `messages` entry (absent or null is `None`) and `stream`. */
  datatype Body = Body(messages: Option<seq<Message>>, stream: bool)

  /** The two roles Flowise accepts in its history. */
  datatype FlowiseRole = UserMessage | ApiMessage
  {
    /** The role as it appears in the posted JSON. */
    function Name(): string
    {
      match this
      case UserMessage => "userMessage"
      case ApiMessage => "apiMessage"
    }
  }

  /** One processed history message: `{"role": ..., "content": ...}`. */
  datatype Entry = Entry(role: FlowiseRole, content: Json)

  /** The posted `data` dictionary; `systemMessage` is `None` when the key is not added. */
  datatype Payload = Payload(
    question: Json,
    history: seq<Entry>,
    overrideConfig: map<string, Json>,
    systemMessage: Option<Json>)

  /** What `requests.post` is called with: the JSON body and the stream flag. */
  datatype Request = Request(data: Payload, stream: bool)

  /** One streamed line after `.decode()`; `parsed` is `None` when `json.loads` raised JSONDecodeError. */
  datatype Line = Line(raw: string, parsed: Option<Json>)

  /**
   * A response that passed `raise_for_status`: what `r.json()` gives, the lines
   * `iter_lines` produces, and the exception that ends the line stream early, if any.
   */
  datatype Response = Response(json: Result<Json, Failure>, lines: seq<Line>, cut: Option<Failure>)

  /** What one call of `pipe` produces: the request passed to `requests.post`, the chunks yielded, the return value. */
  datatype Outcome = Outcome(sent: Option<Request>, yielded: seq<Json>, returned: Json)

  // ------------------------------------------------------------------
  // Exceptions and the catch-all
  // ------------------------------------------------------------------

  /** The exceptions that can reach the catch-all of `pipe`. */
  datatype Failure =
    | NoMessages                // raised explicitly when there are no messages
    | KeyError(key: string)     // a content part lacks a key it is indexed by
    | TypeError(message: string)
    | Upstream(message: string) // raised by the HTTP layer or the JSON decoder; carries str(e)

  /** `str(e)` of the exception. */
  function Describe(f: Failure): string
  {
    match f
    case NoMessages => "No messages found in request body"
    case KeyError(k) => "'" + k + "'"
    case TypeError(m) => m
    case Upstream(m) => m
  }

  /** The text the catch-all returns for an exception. */
  function ErrorText(f: Failure): Json
  {
    JStr("Error in Flowise pipe: " + Describe(f))
  }

  /** Decimal digits of a natural number, as `str` prints it. */
  function Decimal(n: nat): string
  {
    if n < 10 then ["0123456789"[n]] else Decimal(n / 10) + ["0123456789"[n % 10]]
  }

  // ------------------------------------------------------------------
  // Content flattening (_process_message_content)
  // ------------------------------------------------------------------

  /** `message.get("content", "")`: the raw content, or the empty string when absent. */
  function RawContent(msg: Message): Json
  {
    if "content" in msg then msg["content"] else JStr("")
  }

  /** The TypeError that `item["type"]` raises on a value that is not a dictionary. */
  function SubscriptError(item: Json): Failure
  {
    TypeError(
      match item
      case JArr(_) => "list indices must be integers or slices, not str"
      case JStr(_) => "string indices must be integers, not 'str'"
      case _ => "'" + PyTypeName(item) + "' object is not subscriptable")
  }

  /** What one part of a list content contributes: its `text` when its `type` is "text". */
  function PartText(item: Json): Result<Option<Json>, Failure>
  {
    if !item.JObj? then Err(SubscriptError(item))
    else if "type" !in item.fields then Err(KeyError("type"))
    else if item.fields["type"] != JStr("text") then Ok(None)
    else if "text" !in item.fields then Err(KeyError("text"))
    else Ok(Some(item.fields["text"]))
  }

  /** Prefixes a successful list result; an error passes through. */
  function Prepend<T>(prefix: seq<T>, rest: Result<seq<T>, Failure>): Result<seq<T>, Failure>
  {
    match rest
    case Err(f) => Err(f)
    case Ok(xs) => Ok(prefix + xs)
  }

  lemma PrependNothing<T>(rest: Result<seq<T>, Failure>)
    ensures Prepend([], rest) == rest
  {
    if rest.Ok? { assert [] + rest.value == rest.value; }
  }

  lemma PrependTwice<T>(a: seq<T>, b: seq<T>, rest: Result<seq<T>, Failure>)
    ensures Prepend(a, Prepend(b, rest)) == Prepend(a + b, rest)
  {
    if rest.Ok? { assert a + (b + rest.value) == (a + b) + rest.value; }
  }

  /** The texts the loop over a list content collects, or the first exception it raises. */
  function CollectTexts(items: seq<Json>): Result<seq<Json>, Failure>
  {
    if items == [] then Ok([])
    else match PartText(items[0])
      case Err(f) => Err(f)
      case Ok(t) => Prepend(if t.Some? then [t.value] else [], CollectTexts(items[1..]))
  }

  /** Index of the first value that is not a string, or the length when there is none. */
  function FirstNonString(xs: seq<Json>): (i: nat)
    ensures i <= |xs|
    ensures forall k :: 0 <= k < i ==> xs[k].JStr?
    ensures i < |xs| ==> !xs[i].JStr?
  {
    if xs == [] || !xs[0].JStr? then 0 else 1 + FirstNonString(xs[1..])
  }

  /** The strings of a sequence of JSON strings. */
  function Strings(xs: seq<Json>): seq<string>
    requires forall k :: 0 <= k < |xs| ==> xs[k].JStr?
  {
    seq(|xs|, k requires 0 <= k < |xs| => xs[k].s)
  }

  /** The parts separated by `sep`, as `sep.join(parts)`. */
  function Join(sep: string, parts: seq<string>): string
  {
    if parts == [] then "" else if |parts| == 1 then parts[0] else parts[0] + sep + Join(sep, parts[1..])
  }

  /** `" ".join(xs)`: the TypeError it raises on the first non-string item, or the joined text. */
  function JoinWithSpaces(xs: seq<Json>): Result<string, Failure>
  {
    var i := FirstNonString(xs);
    if i < |xs| then
      Err(TypeError("sequence item " + Decimal(i) + ": expected str instance, " + PyTypeName(xs[i]) + " found"))
    else
      Ok(Join(" ", Strings(xs)))
  }

  /** The flattened content of a message, or the exception flattening raises. */
  function FlattenContent(msg: Message): Result<Json, Failure>
  {
    if "content" in msg && msg["content"].JArr? then
      match CollectTexts(msg["content"].items)
      case Err(f) => Err(f)
      case Ok(texts) =>
        match JoinWithSpaces(texts)
        case Err(f) => Err(f)
        case Ok(s) => Ok(JStr(s))
    else
      Ok(RawContent(msg))
  }

  /** `_process_message_content`: the loop over the parts of a list content, then the join. */
  method ProcessMessageContent(msg: Message) returns (r: Result<Json, Failure>)
    ensures r == FlattenContent(msg)
  {
    if "content" in msg && msg["content"].JArr? {
      var items := msg["content"].items;
      var processed: seq<Json> := [];
      var i := 0;
      assert items[0..] == items;
      PrependNothing(CollectTexts(items));
      while i < |items|
        invariant 0 <= i <= |items|
        invariant CollectTexts(items) == Prepend(processed, CollectTexts(items[i..]))
      {
        var item := items[i];
        assert items[i..][1..] == items[i + 1..];
        if !item.JObj? {
          return Err(SubscriptError(item));
        }
        if "type" !in item.fields {
          return Err(KeyError("type"));
        }
        if item.fields["type"] == JStr("text") {
          if "text" !in item.fields {
            return Err(KeyError("text"));
          }
          PrependTwice(processed, [item.fields["text"]], CollectTexts(items[i + 1..]));
          processed := processed + [item.fields["text"]];
        } else {
          PrependNothing(CollectTexts(items[i + 1..]));
        }
        i := i + 1;
      }
      assert processed + [] == processed;
      var joined := JoinWithSpaces(processed);
      if joined.Err? {
        return Err(joined.error);
      }
      return Ok(JStr(joined.value));
    }
    return Ok(RawContent(msg));
  }

  // ------------------------------------------------------------------
  // Role mapping and history (_process_message, the history loop)
  // ------------------------------------------------------------------

  /**
   * `role_mapping.get(message.get("role", "user"), "userMessage")`; a list or a
   * dictionary as role is not hashable and raises.
   */
  function RoleOf(msg: Message): Result<FlowiseRole, Failure>
  {
    var role := if "role" in msg then msg["role"] else JStr("user");
    if role.JArr? || role.JObj? then Err(TypeError("unhashable type: '" + PyTypeName(role) + "'"))
    else if role == JStr("user") then Ok(UserMessage)
    else if role == JStr("assistant") then Ok(ApiMessage)
    else Ok(UserMessage)
  }

  /** `_process_message`: the content is flattened first, then the role is looked up. */
  function HistoryEntry(msg: Message): Result<Entry, Failure>
  {
    match FlattenContent(msg)
    case Err(f) => Err(f)
    case Ok(content) =>
      match RoleOf(msg)
      case Err(f) => Err(f)
      case Ok(role) => Ok(Entry(role, content))
  }

  /** `_process_message`, calling the looping content flattener. */
  method ProcessMessage(msg: Message) returns (r: Result<Entry, Failure>)
    ensures r == HistoryEntry(msg)
  {
    var content := ProcessMessageContent(msg);
    if content.Err? {
      return Err(content.error);
    }
    var role := RoleOf(msg);
    if role.Err? {
      return Err(role.error);
    }
    return Ok(Entry(role.value, content.value));
  }

  /** The history built from the given messages in order, or the first exception. */
  function History(msgs: seq<Message>): Result<seq<Entry>, Failure>
  {
    if msgs == [] then Ok([])
    else match HistoryEntry(msgs[0])
      case Err(f) => Err(f)
      case Ok(e) => Prepend([e], History(msgs[1..]))
  }

  // ------------------------------------------------------------------
  // System message and payload
  // ------------------------------------------------------------------

  /** `msg.get("role") == "system"`. */
  predicate IsSystem(msg: Message)
  {
    "role" in msg && msg["role"] == JStr("system")
  }

  /** The raw content of the first system message, if there is one. */
  function FirstSystem(msgs: seq<Message>): Option<Json>
  {
    if msgs == [] then None
    else if IsSystem(msgs[0]) then Some(RawContent(msgs[0]))
    else FirstSystem(msgs[1..])
  }

  /** The payload `pipe` posts for the given messages, or the exception raised while building it. */
  function BuildPayload(messages: Option<seq<Message>>): Result<Payload, Failure>
  {
    if messages.None? || messages.value == [] then Err(NoMessages)
    else
      var msgs := messages.value;
      match FlattenContent(msgs[|msgs| - 1])
      case Err(f) => Err(f)
      case Ok(question) =>
        match History(msgs[..|msgs| - 1])
        case Err(f) => Err(f)
        case Ok(history) => Ok(Payload(question, history, map[], FirstSystem(msgs)))
  }

  // ------------------------------------------------------------------
  // Response relay
  // ------------------------------------------------------------------

  /** The chunks one streamed line yields. */
  function LineChunks(line: Line): seq<Json>
  {
    if line.raw == "" then []
    else match line.parsed
      case None => [JStr(line.raw)]
      case Some(v) => if v.JObj? && "text" in v.fields then [v.fields["text"]] else []
  }

  /** The chunks a whole line stream yields, line by line. */
  function Relay(lines: seq<Line>): seq<Json>
  {
    if lines == [] then [] else LineChunks(lines[0]) + Relay(lines[1..])
  }

  /** The value a non-streamed response returns: its `text` field when it is a dictionary that has one. */
  function WholeReply(v: Json): Json
  {
    if v.JObj? && "text" in v.fields then v.fields["text"] else JStr("")
  }

  /** What `pipe` produces for a request body, given how the server answers. */
  function PipeOutcome(body: Body, server: Request -> Result<Response, Failure>): Outcome
  {
    match BuildPayload(body.messages)
    case Err(f) => Outcome(None, [], ErrorText(f))
    case Ok(data) =>
      var request := Request(data, body.stream);
      match server(request)
      case Err(f) => Outcome(Some(request), [], ErrorText(f))
      case Ok(r) =>
        if body.stream then
          Outcome(Some(request), Relay(r.lines), if r.cut.Some? then ErrorText(r.cut.value) else JNull)
        else
          match r.json
          case Err(f) => Outcome(Some(request), [], ErrorText(f))
          case Ok(v) => Outcome(Some(request), [], WholeReply(v))
  }

  /**
   * Regrouping a concatenation of three sequences; stated as a lemma so that the
   * relay loop's invariant step stays small.
   */
  lemma ConcatAssoc<T>(a: seq<T>, b: seq<T>, c: seq<T>)
    ensures a + (b + c) == (a + b) + c
  {
  }

  /** The streaming branch of `pipe`: the loop over `iter_lines`, yielding as it goes. */
  method RelayLines(lines: seq<Line>) returns (chunks: seq<Json>)
    ensures chunks == Relay(lines)
  {
    chunks := [];
    var n := 0;
    while n < |lines|
      invariant 0 <= n <= |lines|
      invariant Relay(lines) == chunks + Relay(lines[n..])
    {
      assert lines[n..][1..] == lines[n + 1..];
      assert Relay(lines[n..]) == LineChunks(lines[n]) + Relay(lines[n + 1..]);
      ghost var before := chunks;
      var line := lines[n];
      if line.raw != "" {
        match line.parsed
        case Some(v) =>
          if v.JObj? && "text" in v.fields {
            chunks := chunks + [v.fields["text"]];
          }
        case None =>
          chunks := chunks + [JStr(line.raw)];
      }
      assert chunks == before + LineChunks(line);
      ConcatAssoc(before, LineChunks(line), Relay(lines[n + 1..]));
      n := n + 1;
    }
    assert chunks + [] == chunks;
  }

  /** The history loop of `pipe`: every message but the last, in order, stopping at the first error. */
  method ProcessHistory(prior: seq<Message>) returns (r: Result<seq<Entry>, Failure>)
    ensures r == History(prior)
  {
    var history: seq<Entry> := [];
    var i := 0;
    assert prior[0..] == prior;
    PrependNothing(History(prior));
    while i < |prior|
      invariant 0 <= i <= |prior|
      invariant History(prior) == Prepend(history, History(prior[i..]))
    {
      assert prior[i..][1..] == prior[i + 1..];
      var entry := ProcessMessage(prior[i]);
      if entry.Err? {
        return Err(entry.error);
      }
      PrependTwice(history, [entry.value], History(prior[i + 1..]));
      history := history + [entry.value];
      i := i + 1;
    }
    assert prior[i..] == [];
    assert history + [] == history;
    return Ok(history);
  }

  /** The system-message loop of `pipe`: the raw content of the first message whose role is "system". */
  method FindSystemMessage(messages: seq<Message>) returns (s: Option<Json>)
    ensures s == FirstSystem(messages)
  {
    var j := 0;
    while j < |messages|
      invariant 0 <= j <= |messages|
      invariant FirstSystem(messages) == FirstSystem(messages[j..])
    {
      assert messages[j..][1..] == messages[j + 1..];
      if IsSystem(messages[j]) {
        return Some(RawContent(messages[j]));
      }
      j := j + 1;
    }
    return None;
  }

  /**
   * `Pipe.pipe`: builds the payload, posts it once, and relays the response;
   * every exception becomes the error text the generator returns.
   */
  method Pipe(body: Body, server: Request -> Result<Response, Failure>) returns (out: Outcome)
    ensures out == PipeOutcome(body, server)
  {
    var messages := if body.messages.Some? then body.messages.value else [];
    if messages == [] {
      return Outcome(None, [], ErrorText(NoMessages));
    }

    var question := ProcessMessageContent(messages[|messages| - 1]);
    if question.Err? {
      return Outcome(None, [], ErrorText(question.error));
    }

    var history: seq<Entry> := [];
    if |messages| > 1 {
      var h := ProcessHistory(messages[..|messages| - 1]);
      if h.Err? {
        return Outcome(None, [], ErrorText(h.error));
      }
      history := h.value;
    }

    var data := Payload(question.value, history, map[], None);
    var system := FindSystemMessage(messages);
    if system.Some? {
      data := data.(systemMessage := system);
    }
    assert BuildPayload(body.messages) == Ok(data);

    var request := Request(data, body.stream);
    var response := server(request);
    if response.Err? {
      return Outcome(Some(request), [], ErrorText(response.error));
    }
    var r := response.value;

    if body.stream {
      var chunks := RelayLines(r.lines);
      if r.cut.Some? {
        return Outcome(Some(request), chunks, ErrorText(r.cut.value));
      }
      return Outcome(Some(request), chunks, JNull);
    } else {
      match r.json
      case Err(f) =>
        return Outcome(Some(request), [], ErrorText(f));
      case Ok(v) =>
        if v.JObj? && "text" in v.fields {
          return Outcome(Some(request), [], v.fields["text"]);
        }
        return Outcome(Some(request), [], JStr(""));
    }
  }
}
