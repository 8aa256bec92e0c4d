/**
 * What the Flowise adapter promises: how content is flattened, how roles map,
 * what the request payload holds, and what the generator yields and returns.
 */
module FlowiseProperties {
  import opened Wrappers
  import opened Flowise

  // ------------------------------------------------------------------
  // Content flattening
  // ------------------------------------------------------------------

  /** A content part whose `type` is "text". */
  predicate IsTextPart(item: Json)
  {
    item.JObj? && "type" in item.fields && item.fields["type"] == JStr("text")
  }

  /** A part of the shape the host sends: a dictionary with a `type`, and a string `text` when it is a text part. */
  predicate WellFormedPart(item: Json)
  {
    item.JObj? && "type" in item.fields && (IsTextPart(item) ==> "text" in item.fields && item.fields["text"].JStr?)
  }

  /** The text a well-formed part contributes: its `text` if it is a text part, nothing otherwise. */
  function TextOfPart(item: Json): seq<string>
    requires WellFormedPart(item)
  {
    if IsTextPart(item) then [item.fields["text"].s] else []
  }

  /** Reference definition: the `text` of the text parts, in their original order. */
  function TextsOf(items: seq<Json>): seq<string>
    requires forall i :: 0 <= i < |items| ==> WellFormedPart(items[i])
  {
    if items == [] then [] else TextOfPart(items[0]) + TextsOf(items[1..])
  }

  function AsJson(ss: seq<string>): seq<Json>
  {
    seq(|ss|, k requires 0 <= k < |ss| => JStr(ss[k]))
  }

  /** Selecting text parts commutes with concatenation: order is preserved. */
  lemma {:induction false} TextsOfConcat(a: seq<Json>, b: seq<Json>)
    requires forall i :: 0 <= i < |a| ==> WellFormedPart(a[i])
    requires forall i :: 0 <= i < |b| ==> WellFormedPart(b[i])
    ensures forall i :: 0 <= i < |a + b| ==> WellFormedPart((a + b)[i])
    ensures TextsOf(a + b) == TextsOf(a) + TextsOf(b)
  {
    if a == [] {
      assert a + b == b;
    } else {
      assert (a + b)[1..] == a[1..] + b;
      TextsOfConcat(a[1..], b);
    }
  }

  /** `sep.join(a + b)` is the two joins with one separator between them. */
  lemma {:induction false} JoinConcat(sep: string, a: seq<string>, b: seq<string>)
    requires a != [] && b != []
    ensures Join(sep, a + b) == Join(sep, a) + sep + Join(sep, b)
  {
    if |a| == 1 {
      assert (a + b)[1..] == b;
    } else {
      assert (a + b)[1..] == a[1..] + b;
      JoinConcat(sep, a[1..], b);
    }
  }

  lemma {:induction false} CollectWellFormed(items: seq<Json>)
    requires forall i :: 0 <= i < |items| ==> WellFormedPart(items[i])
    ensures CollectTexts(items) == Ok(AsJson(TextsOf(items)))
  {
    if items != [] {
      CollectWellFormed(items[1..]);
      var head := TextOfPart(items[0]);
      var tail := TextsOf(items[1..]);
      assert TextsOf(items) == head + tail;
      assert PartText(items[0]) == Ok(if IsTextPart(items[0]) then Some(JStr(head[0])) else None);
      assert AsJson(head) == if IsTextPart(items[0]) then [JStr(head[0])] else [];
      assert CollectTexts(items) == Prepend(AsJson(head), CollectTexts(items[1..]));
      assert AsJson(head + tail) == AsJson(head) + AsJson(tail);
    } else {
      assert AsJson([]) == [];
    }
  }

  /**
   * A list content of well-formed parts flattens to the texts of its text parts,
   * in order, joined by single spaces.
   */
  lemma FlattenWellFormed(msg: Message)
    requires "content" in msg && msg["content"].JArr?
    requires forall i :: 0 <= i < |msg["content"].items| ==> WellFormedPart(msg["content"].items[i])
    ensures FlattenContent(msg) == Ok(JStr(Join(" ", TextsOf(msg["content"].items))))
  {
    var items := msg["content"].items;
    CollectWellFormed(items);
    var xs := AsJson(TextsOf(items));
    assert Strings(xs) == TextsOf(items);
  }

  /**
   * Content split into two lists of well-formed parts flattens to the two
   * flattenings with one space between them; a half without text parts adds nothing.
   */
  lemma FlattenConcat(a: seq<Json>, b: seq<Json>)
    requires forall i :: 0 <= i < |a| ==> WellFormedPart(a[i])
    requires forall i :: 0 <= i < |b| ==> WellFormedPart(b[i])
    ensures var whole := FlattenContent(map["content" := JArr(a + b)]);
            var left := FlattenContent(map["content" := JArr(a)]);
            var right := FlattenContent(map["content" := JArr(b)]);
            left.Ok? && left.value.JStr? && right.Ok? && right.value.JStr? &&
            whole == Ok(JStr(
              if TextsOf(a) == [] then right.value.s
              else if TextsOf(b) == [] then left.value.s
              else left.value.s + " " + right.value.s))
  {
    TextsOfConcat(a, b);
    FlattenWellFormed(map["content" := JArr(a + b)]);
    FlattenWellFormed(map["content" := JArr(a)]);
    FlattenWellFormed(map["content" := JArr(b)]);
    if TextsOf(a) == [] {
      assert TextsOf(a) + TextsOf(b) == TextsOf(b);
    } else if TextsOf(b) == [] {
      assert TextsOf(a) + TextsOf(b) == TextsOf(a);
    } else {
      JoinConcat(" ", TextsOf(a), TextsOf(b));
    }
  }

  lemma {:induction false} CollectBad(items: seq<Json>, i: nat)
    requires i < |items| && !WellFormedPart(items[i])
    ensures CollectTexts(items).Err? ||
            exists k :: 0 <= k < |CollectTexts(items).value| && !CollectTexts(items).value[k].JStr?
  {
    if i == 0 {
      match PartText(items[0])
      case Err(_) =>
      case Ok(t) =>
        var rest := CollectTexts(items[1..]);
        if rest.Ok? {
          assert ([t.value] + rest.value)[0] == t.value;
        }
    } else {
      CollectBad(items[1..], i - 1);
      match PartText(items[0])
      case Err(_) =>
      case Ok(t) =>
        var head := if t.Some? then [t.value] else [];
        var rest := CollectTexts(items[1..]);
        if rest.Ok? {
          var k :| 0 <= k < |rest.value| && !rest.value[k].JStr?;
          assert (head + rest.value)[|head| + k] == rest.value[k];
        }
    }
  }

  /** A list content fails to flatten exactly when one of its parts is not well-formed. */
  lemma FlattenListFails(msg: Message)
    requires "content" in msg && msg["content"].JArr?
    ensures FlattenContent(msg).Err? <==>
            exists i :: 0 <= i < |msg["content"].items| && !WellFormedPart(msg["content"].items[i])
  {
    var items := msg["content"].items;
    if exists i :: 0 <= i < |items| && !WellFormedPart(items[i]) {
      var i :| 0 <= i < |items| && !WellFormedPart(items[i]);
      CollectBad(items, i);
    } else {
      FlattenWellFormed(msg);
    }
  }

  /** Content that is not a list is returned unchanged; absent content gives "". */
  lemma FlattenNonList(msg: Message)
    requires !("content" in msg && msg["content"].JArr?)
    ensures "content" !in msg ==> FlattenContent(msg) == Ok(JStr(""))
    ensures "content" in msg ==> FlattenContent(msg) == Ok(msg["content"])
  {
  }

  // ------------------------------------------------------------------
  // Roles and history
  // ------------------------------------------------------------------

  /**
   * Role mapping: "assistant" and nothing else maps to `apiMessage`; every
   * other hashable role, a missing one and "system" included, maps to `userMessage`.
   */
  lemma RoleMapping(msg: Message)
    ensures RoleOf(msg).Err? <==> "role" in msg && (msg["role"].JArr? || msg["role"].JObj?)
    ensures RoleOf(msg) == Ok(ApiMessage) <==> "role" in msg && msg["role"] == JStr("assistant")
    ensures RoleOf(msg).Ok? && RoleOf(msg) != Ok(ApiMessage) ==> RoleOf(msg) == Ok(UserMessage)
    ensures "role" !in msg ==> RoleOf(msg) == Ok(UserMessage)
    ensures IsSystem(msg) ==> RoleOf(msg) == Ok(UserMessage)
  {
  }

  /** The history has one entry per message, in order, each the processed message. */
  lemma {:induction false} HistoryOk(msgs: seq<Message>)
    ensures History(msgs).Ok? <==> forall i :: 0 <= i < |msgs| ==> HistoryEntry(msgs[i]).Ok?
    ensures History(msgs).Ok? ==>
              |History(msgs).value| == |msgs| &&
              forall i :: 0 <= i < |msgs| ==> HistoryEntry(msgs[i]) == Ok(History(msgs).value[i])
  {
    if msgs != [] {
      HistoryOk(msgs[1..]);
      if HistoryEntry(msgs[0]).Ok? && History(msgs[1..]).Ok? {
        var h := History(msgs).value;
        assert h == [HistoryEntry(msgs[0]).value] + History(msgs[1..]).value;
        forall i | 0 <= i < |msgs| ensures HistoryEntry(msgs[i]) == Ok(h[i]) {
          if i > 0 { assert msgs[i] == msgs[1..][i - 1]; }
        }
      }
      if !History(msgs[1..]).Ok? {
        var i :| 0 <= i < |msgs[1..]| && !HistoryEntry(msgs[1..][i]).Ok?;
        assert msgs[1..][i] == msgs[i + 1];
      }
      if forall i :: 0 <= i < |msgs| ==> HistoryEntry(msgs[i]).Ok? {
        forall i | 0 <= i < |msgs[1..]| ensures HistoryEntry(msgs[1..][i]).Ok? {
          assert msgs[1..][i] == msgs[i + 1];
        }
      }
    }
  }

  /** A failing history reports the exception of its first failing message. */
  lemma {:induction false} HistoryFirstError(msgs: seq<Message>, f: Failure)
    requires History(msgs) == Err(f)
    ensures exists i :: 0 <= i < |msgs| && HistoryEntry(msgs[i]) == Err(f) &&
                        forall k :: 0 <= k < i ==> HistoryEntry(msgs[k]).Ok?
  {
    assert msgs != [];
    if HistoryEntry(msgs[0]).Err? {
      assert HistoryEntry(msgs[0]) == Err(f);
    } else {
      assert History(msgs[1..]) == Err(f);
      HistoryFirstError(msgs[1..], f);
      var i :| 0 <= i < |msgs[1..]| && HistoryEntry(msgs[1..][i]) == Err(f) &&
               forall k :: 0 <= k < i ==> HistoryEntry(msgs[1..][k]).Ok?;
      assert msgs[1..][i] == msgs[i + 1];
      forall k | 0 <= k < i + 1 ensures HistoryEntry(msgs[k]).Ok? {
        if k > 0 { assert msgs[k] == msgs[1..][k - 1]; }
      }
    }
  }

  // ------------------------------------------------------------------
  // System message and payload
  // ------------------------------------------------------------------

  /** A system message is found exactly when one exists. */
  lemma {:induction false} FirstSystemExists(msgs: seq<Message>)
    ensures FirstSystem(msgs).Some? <==> exists k :: 0 <= k < |msgs| && IsSystem(msgs[k])
  {
    if msgs != [] && !IsSystem(msgs[0]) {
      FirstSystemExists(msgs[1..]);
      if exists k :: 0 <= k < |msgs| && IsSystem(msgs[k]) {
        var k :| 0 <= k < |msgs| && IsSystem(msgs[k]);
        assert msgs[1..][k - 1] == msgs[k];
      }
      if FirstSystem(msgs[1..]).Some? {
        var k :| 0 <= k < |msgs[1..]| && IsSystem(msgs[1..][k]);
        assert msgs[k + 1] == msgs[1..][k];
      }
    }
  }

  /** The system message is the raw, unflattened content of the first message whose role is "system". */
  lemma {:induction false} FirstSystemIsFirst(msgs: seq<Message>, k: nat)
    requires k < |msgs| && IsSystem(msgs[k])
    requires forall j :: 0 <= j < k ==> !IsSystem(msgs[j])
    ensures FirstSystem(msgs) == Some(RawContent(msgs[k]))
  {
    if k > 0 {
      forall j | 0 <= j < k - 1 ensures !IsSystem(msgs[1..][j]) {
        assert msgs[1..][j] == msgs[j + 1];
      }
      FirstSystemIsFirst(msgs[1..], k - 1);
    }
  }

  /**
   * A built payload: the question is the flattened last message, the history the
   * processed earlier messages in order (system messages included), the override
   * configuration empty, and the system message present exactly when some message
   * has role "system".
   */
  lemma PayloadShape(msgs: seq<Message>, p: Payload)
    requires BuildPayload(Some(msgs)) == Ok(p)
    ensures msgs != []
    ensures FlattenContent(msgs[|msgs| - 1]) == Ok(p.question)
    ensures |p.history| == |msgs| - 1
    ensures forall i :: 0 <= i < |msgs| - 1 ==> HistoryEntry(msgs[i]) == Ok(p.history[i])
    ensures p.overrideConfig == map[]
    ensures p.systemMessage == FirstSystem(msgs)
    ensures p.systemMessage.Some? <==> exists k :: 0 <= k < |msgs| && IsSystem(msgs[k])
  {
    PayloadParts(msgs, p);
    var prior := msgs[..|msgs| - 1];
    HistoryOk(prior);
    forall i | 0 <= i < |msgs| - 1 ensures HistoryEntry(msgs[i]) == Ok(p.history[i]) {
      assert prior[i] == msgs[i];
    }
    FirstSystemExists(msgs);
  }

  /** The parts of a built payload, each the result of its own step. */
  lemma PayloadParts(msgs: seq<Message>, p: Payload)
    requires BuildPayload(Some(msgs)) == Ok(p)
    ensures msgs != []
    ensures FlattenContent(msgs[|msgs| - 1]) == Ok(p.question)
    ensures History(msgs[..|msgs| - 1]) == Ok(p.history)
    ensures p.overrideConfig == map[]
    ensures p.systemMessage == FirstSystem(msgs)
  {
  }

  /** A payload is built exactly when there are messages and each of them processes without an exception. */
  lemma PayloadBuilt(msgs: seq<Message>)
    ensures BuildPayload(Some(msgs)).Ok? <==>
              msgs != [] && FlattenContent(msgs[|msgs| - 1]).Ok? &&
              forall i :: 0 <= i < |msgs| - 1 ==> HistoryEntry(msgs[i]).Ok?
  {
    if msgs != [] {
      var prior := msgs[..|msgs| - 1];
      HistoryOk(prior);
      assert forall i :: 0 <= i < |msgs| - 1 ==> prior[i] == msgs[i];
    }
  }

  /** A single message gives an empty history and that message's flattened content as the question. */
  lemma SingleMessage(msg: Message, q: Json)
    requires FlattenContent(msg) == Ok(q)
    ensures BuildPayload(Some([msg])) ==
            Ok(Payload(q, [], map[], if IsSystem(msg) then Some(RawContent(msg)) else None))
  {
    assert [msg][..0] == [];
    assert [msg][1..] == [];
    assert History([]) == Ok([]);
    assert FirstSystem([msg]) == if IsSystem(msg) then Some(RawContent(msg)) else None;
    assert FlattenContent([msg][0]) == Ok(q);
  }

  /**
   * The conversation system "S", user "A", assistant "B", user "C": the system
   * message is both the system message and the first history entry.
   */
  lemma ExampleConversation()
    ensures BuildPayload(Some([
              map["role" := JStr("system"), "content" := JStr("S")],
              map["role" := JStr("user"), "content" := JStr("A")],
              map["role" := JStr("assistant"), "content" := JStr("B")],
              map["role" := JStr("user"), "content" := JStr("C")]])) ==
            Ok(Payload(
              JStr("C"),
              [Entry(UserMessage, JStr("S")), Entry(UserMessage, JStr("A")), Entry(ApiMessage, JStr("B"))],
              map[],
              Some(JStr("S"))))
  {
    var s := map["role" := JStr("system"), "content" := JStr("S")];
    var a := map["role" := JStr("user"), "content" := JStr("A")];
    var b := map["role" := JStr("assistant"), "content" := JStr("B")];
    var c := map["role" := JStr("user"), "content" := JStr("C")];
    var msgs := [s, a, b, c];
    assert msgs[..3] == [s, a, b];
    assert [s, a, b][1..] == [a, b];
    assert [a, b][1..] == [b];
    assert [b][1..] == [];
    assert HistoryEntry(s) == Ok(Entry(UserMessage, JStr("S")));
    assert HistoryEntry(a) == Ok(Entry(UserMessage, JStr("A")));
    assert HistoryEntry(b) == Ok(Entry(ApiMessage, JStr("B")));
    assert History([]) == Ok([]);
    assert [Entry(ApiMessage, JStr("B"))] + [] == [Entry(ApiMessage, JStr("B"))];
    assert History([b]) == Ok([Entry(ApiMessage, JStr("B"))]);
    assert [Entry(UserMessage, JStr("A"))] + [Entry(ApiMessage, JStr("B"))] ==
           [Entry(UserMessage, JStr("A")), Entry(ApiMessage, JStr("B"))];
    assert History([a, b]) == Ok([Entry(UserMessage, JStr("A")), Entry(ApiMessage, JStr("B"))]);
    assert [Entry(UserMessage, JStr("S"))] + [Entry(UserMessage, JStr("A")), Entry(ApiMessage, JStr("B"))] ==
           [Entry(UserMessage, JStr("S")), Entry(UserMessage, JStr("A")), Entry(ApiMessage, JStr("B"))];
    assert History([s, a, b]) ==
           Ok([Entry(UserMessage, JStr("S")), Entry(UserMessage, JStr("A")), Entry(ApiMessage, JStr("B"))]);
    assert FlattenContent(msgs[3]) == Ok(JStr("C"));
    assert FirstSystem(msgs) == Some(JStr("S"));
  }

  // ------------------------------------------------------------------
  // Response relay
  // ------------------------------------------------------------------

  /** The relay is line by line: the chunks of a concatenation are the concatenated chunks. */
  lemma {:induction false} RelayConcat(a: seq<Line>, b: seq<Line>)
    ensures Relay(a + b) == Relay(a) + Relay(b)
  {
    if a == [] {
      assert a + b == b;
    } else {
      assert (a + b)[1..] == a[1..] + b;
      RelayConcat(a[1..], b);
    }
  }

  /** Each line yields at most one chunk. */
  lemma {:induction false} RelayBound(lines: seq<Line>)
    ensures |Relay(lines)| <= |lines|
  {
    if lines != [] {
      RelayBound(lines[1..]);
    }
  }

  /** An empty line yields nothing, wherever it stands. */
  lemma RelaySkipsEmpty(a: seq<Line>, parsed: Option<Json>, b: seq<Line>)
    ensures Relay(a + [Line("", parsed)] + b) == Relay(a + b)
  {
    RelayConcat(a + [Line("", parsed)], b);
    RelayConcat(a, [Line("", parsed)]);
    RelayConcat(a, b);
  }

  /** Lines that do not decode as JSON are yielded as they are, in order. */
  lemma {:induction false} RelayUndecodable(lines: seq<Line>)
    requires forall i :: 0 <= i < |lines| ==> lines[i].raw != "" && lines[i].parsed.None?
    ensures Relay(lines) == seq(|lines|, i requires 0 <= i < |lines| => JStr(lines[i].raw))
  {
    if lines != [] {
      RelayUndecodable(lines[1..]);
    }
  }

  /** The lines {"text":"a"}, notjson, {"text":"b"} yield "a", "notjson", "b". */
  lemma RelayExample()
    ensures Relay([
              Line("{\"text\":\"a\"}", Some(JObj(map["text" := JStr("a")]))),
              Line("notjson", None),
              Line("{\"text\":\"b\"}", Some(JObj(map["text" := JStr("b")])))]) ==
            [JStr("a"), JStr("notjson"), JStr("b")]
  {
    var l1 := Line("{\"text\":\"a\"}", Some(JObj(map["text" := JStr("a")])));
    var l2 := Line("notjson", None);
    var l3 := Line("{\"text\":\"b\"}", Some(JObj(map["text" := JStr("b")])));
    assert [l1, l2, l3][1..] == [l2, l3];
    assert [l2, l3][1..] == [l3];
    assert [l3][1..] == [];
  }

  // ------------------------------------------------------------------
  // The generator's outcome
  // ------------------------------------------------------------------

  /** Missing or empty messages: no request, nothing yielded, and the fixed error text returned. */
  lemma PipeWithoutMessages(body: Body, server: Request -> Result<Response, Failure>)
    requires body.messages.None? || body.messages.value == []
    ensures PipeOutcome(body, server) ==
            Outcome(None, [], JStr("Error in Flowise pipe: " + "No messages found in request body"))
  {
    assert BuildPayload(body.messages) == Err(NoMessages);
  }

  /**
   * `requests.post` is called exactly when the payload builds, and with that payload;
   * otherwise the exception's error text is returned and nothing is yielded.
   */
  lemma PipePostsBuiltPayload(body: Body, server: Request -> Result<Response, Failure>)
    ensures PipeOutcome(body, server).sent.Some? <==> BuildPayload(body.messages).Ok?
    ensures BuildPayload(body.messages).Ok? ==>
              PipeOutcome(body, server).sent == Some(Request(BuildPayload(body.messages).value, body.stream))
    ensures BuildPayload(body.messages).Err? ==>
              PipeOutcome(body, server) == Outcome(None, [], ErrorText(BuildPayload(body.messages).error))
  {
  }

  /**
   * Without streaming nothing is yielded: the generator returns the response's
   * `text` field, "" for any other response, or the error text.
   */
  lemma PipeNotStreaming(body: Body, server: Request -> Result<Response, Failure>)
    requires !body.stream
    ensures PipeOutcome(body, server).yielded == []
    ensures BuildPayload(body.messages).Ok? ==>
              var request := Request(BuildPayload(body.messages).value, false);
              PipeOutcome(body, server).returned ==
                match server(request)
                case Err(f) => ErrorText(f)
                case Ok(r) =>
                  match r.json
                  case Err(f) => ErrorText(f)
                  case Ok(v) => if v.JObj? && "text" in v.fields then v.fields["text"] else JStr("")
  {
  }

  /** The response {"text":"hello"} returns "hello"; the response {} returns "". */
  lemma WholeReplyExamples()
    ensures WholeReply(JObj(map["text" := JStr("hello")])) == JStr("hello")
    ensures WholeReply(JObj(map[])) == JStr("")
  {
  }

  /**
   * With streaming the generator yields the relayed lines, then returns None,
   * or the error text of the exception that cut the stream short.
   */
  lemma PipeStreaming(body: Body, server: Request -> Result<Response, Failure>, r: Response)
    requires body.stream && BuildPayload(body.messages).Ok?
    requires server(Request(BuildPayload(body.messages).value, true)) == Ok(r)
    ensures PipeOutcome(body, server).yielded == Relay(r.lines)
    ensures PipeOutcome(body, server).returned == if r.cut.Some? then ErrorText(r.cut.value) else JNull
  {
  }
}
