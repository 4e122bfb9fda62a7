/** `build_req_from_payload`: the chat request assembled from an optional
    JSON object and the raw text of the inbound message. */
module RequestBuilder {
  import opened PyValues
  import opened PyText
  import opened ChatModels
  import LlmClients

  /** The fixed system prompt every chat request starts with. */
  const SystemPrompt: string :=
    "你是一个聊天机器人，但你要把自己当成真人，以口语化、简洁的方式回答。一次答复到一个标点结束；不要出现“哈哈”等语气词。"

  const SystemMessage: Message := Message("system", SystemPrompt)

  /** `payload.get("model") or DEFAULT_MODEL` for a dict payload, else the default. */
  function ChosenModel(payload: Json): (m: Json)
    ensures Truthy(m)
    ensures payload.JObj? && Truthy(Get(payload.fields, "model")) ==> m == payload.fields["model"]
    ensures !(payload.JObj? && Truthy(Get(payload.fields, "model"))) ==> m == JStr(LlmClients.DefaultModel)
  {
    if payload.JObj? && Truthy(Get(payload.fields, "model")) then payload.fields["model"]
    else JStr(LlmClients.DefaultModel)
  }

  /** `float(v)` for a value that passed `isinstance(v, (int, float))`;
      a bool is an int, so True becomes 1.0 and False 0.0. */
  function PyFloat(v: Json): real
    requires v.JInt? || v.JFloat? || v.JBool?
  {
    match v
    case JInt(i) => i as real
    case JFloat(r) => r
    case JBool(b) => if b then 1.0 else 0.0
  }

  /** The temperature: set only when the key is there with a number. */
  function ChosenTemperature(payload: Json): Option<real> {
    if payload.JObj? && "temperature" in payload.fields
       && (payload.fields["temperature"].JInt? || payload.fields["temperature"].JFloat? || payload.fields["temperature"].JBool?)
    then Some(PyFloat(payload.fields["temperature"]))
    else None
  }

  /** The temperature is set exactly when the payload is a dict whose
      `temperature` is an int, a float or a bool, and then it is `float(v)`:
      the integer as a real, the float itself, 1.0 for True and 0.0 for False. */
  lemma TemperatureRule(payload: Json)
    ensures ChosenTemperature(payload).Some? <==>
      payload.JObj? && "temperature" in payload.fields
      && (payload.fields["temperature"].JInt? || payload.fields["temperature"].JFloat? || payload.fields["temperature"].JBool?)
    ensures payload.JObj? && Get(payload.fields, "temperature").JInt? ==>
      ChosenTemperature(payload) == Some(payload.fields["temperature"].i as real)
    ensures payload.JObj? && Get(payload.fields, "temperature").JFloat? ==>
      ChosenTemperature(payload) == Some(payload.fields["temperature"].r)
    ensures payload.JObj? && Get(payload.fields, "temperature") == JBool(true) ==> ChosenTemperature(payload) == Some(1.0)
    ensures payload.JObj? && Get(payload.fields, "temperature") == JBool(false) ==> ChosenTemperature(payload) == Some(0.0)
  {
  }

  /** `payload.get("max_completion_tokens", payload.get("max_tokens"))`:
      the newer key whenever it is present, whatever its value. */
  function MaxTokensCandidate(fields: map<string, Json>): Json {
    if "max_completion_tokens" in fields then fields["max_completion_tokens"] else Get(fields, "max_tokens")
  }

  /** The max-tokens value as the source accepts it: `isinstance(mt, int)`
      also lets a JSON boolean through. */
  function MaxTokensAsWritten(payload: Json): (r: Option<Json>)
    ensures r.Some? <==> payload.JObj? && IsPyInt(MaxTokensCandidate(payload.fields))
    ensures r.Some? ==> r.value == MaxTokensCandidate(payload.fields)
  {
    if payload.JObj? && IsPyInt(MaxTokensCandidate(payload.fields)) then Some(MaxTokensCandidate(payload.fields))
    else None
  }

  /** The max-tokens value the model uses: an integer under the chosen key. */
  function ChosenMaxTokens(payload: Json): Option<int> {
    if payload.JObj? && MaxTokensCandidate(payload.fields).JInt? then Some(MaxTokensCandidate(payload.fields).i)
    else None
  }

  /** `{"max_tokens": true}` passes the source's check, so the request would
      carry the boolean `true` as its max completion tokens. */
  lemma MaxTokensAsWrittenAcceptsBool()
    ensures MaxTokensAsWritten(JObj(map["max_tokens" := JBool(true)])) == Some(JBool(true))
    ensures ChosenMaxTokens(JObj(map["max_tokens" := JBool(true)])) == None
  {
  }

  /** The corrected choice agrees with the source on every integer and
      drops exactly the booleans. */
  lemma ChosenMaxTokensIsIntOnly(payload: Json)
    ensures forall n :: ChosenMaxTokens(payload) == Some(n) <==> MaxTokensAsWritten(payload) == Some(JInt(n))
    ensures ChosenMaxTokens(payload) == None <==> MaxTokensAsWritten(payload) == None || MaxTokensAsWritten(payload).value.JBool?
  {
  }

  /** `max_completion_tokens` shadows `max_tokens` whenever the key exists,
      even when its value is unusable. */
  lemma MaxTokensKeyPriority(fields: map<string, Json>, v: Json)
    ensures "max_completion_tokens" in fields ==>
      ChosenMaxTokens(JObj(fields["max_tokens" := v])) == ChosenMaxTokens(JObj(fields))
    ensures "max_completion_tokens" !in fields && "max_tokens" in fields ==>
      ChosenMaxTokens(JObj(fields)) == (if fields["max_tokens"].JInt? then Some(fields["max_tokens"].i) else None)
  {
  }

  /** One entry of `payload["messages"]`: kept unstripped when its role is
      a string and its content a non-blank string, skipped otherwise; a
      truthy entry that is not a dict makes `.get` raise. */
  function HistoryEntry(m: Json): (r: Result<Option<Message>>)
    ensures r.Err? <==> Truthy(m) && !m.JObj?
    ensures r.Ok? && r.value.Some? ==>
      m.JObj? && "role" in m.fields && "content" in m.fields
      && m.fields["role"] == JStr(r.value.value.role) && m.fields["content"] == JStr(r.value.value.content)
      && !IsBlank(r.value.value.content)
    ensures (m.JObj? && Get(m.fields, "role").JStr? && Get(m.fields, "content").JStr?
             && !IsBlank(Get(m.fields, "content").s)) ==>
      r == Ok(Some(Message(Get(m.fields, "role").s, Get(m.fields, "content").s)))
  {
    match OrEmptyDict(m)
    case Err(e) => Err(e)
    case Ok(d) =>
      var role := Get(d, "role");
      var content := Get(d, "content");
      if content.JStr? then StripEmptyIffBlank(content.s); (
        if role.JStr? && Strip(content.s) != "" then Ok(Some(Message(role.s, content.s)))
        else Ok(None))
      else Ok(None)
  }

  /** One turn of the `for m in arr` loop: append the entry's message if
      it is kept; an exception stops the loop. */
  function HistoryStep(acc: Result<seq<Message>>, entry: Json): Result<seq<Message>> {
    if acc.Err? then acc
    else
      var e := HistoryEntry(entry);
      if e.Err? then Err(e.error)
      else if e.value.Some? then Ok(acc.value + [e.value.value])
      else acc
  }

  /** The messages the `for m in arr` loop appends, or the exception it raises. */
  function History(entries: seq<Json>): Result<seq<Message>> {
    if entries == [] then Ok([])
    else HistoryStep(History(entries[..|entries| - 1]), entries[|entries| - 1])
  }

  /** Once an entry raises, the whole loop raises. */
  lemma {:induction false} HistoryErrExtends(entries: seq<Json>, k: nat)
    requires k <= |entries| && History(entries[..k]).Err?
    ensures History(entries) == History(entries[..k])
    decreases |entries| - k
  {
    if k < |entries| {
      assert entries[..k + 1][..k] == entries[..k];
      HistoryErrExtends(entries, k + 1);
    } else {
      assert entries[..k] == entries;
    }
  }

  /** The loop over a concatenation is the loop over each part, results
      joined in order. */
  lemma {:induction false} HistoryAppend(a: seq<Json>, b: seq<Json>)
    requires History(a).Ok? && History(b).Ok?
    ensures History(a + b) == Ok(History(a).value + History(b).value)
  {
    if b == [] {
      assert a + b == a;
      assert History(a).value + History(b).value == History(a).value;
    } else {
      var b' := b[..|b| - 1];
      assert History(b').Ok?;
      HistoryAppend(a, b');
      assert (a + b)[..|a + b| - 1] == a + b';
      assert (a + b)[|a + b| - 1] == b[|b| - 1];
      assert History(a + b) == HistoryStep(Ok(History(a).value + History(b').value), b[|b| - 1]);
      var e := HistoryEntry(b[|b| - 1]);
      if e.Ok? && e.value.Some? {
        assert History(a).value + History(b').value + [e.value.value]
            == History(a).value + (History(b').value + [e.value.value]);
      }
    }
  }

  /** The loop raises exactly when some entry is a truthy non-dict. */
  lemma {:induction false} HistoryFailsIff(entries: seq<Json>)
    ensures History(entries).Err? <==> exists i :: 0 <= i < |entries| && Truthy(entries[i]) && !entries[i].JObj?
  {
    if entries != [] {
      var init := entries[..|entries| - 1];
      HistoryFailsIff(init);
      if exists i :: 0 <= i < |init| && Truthy(init[i]) && !init[i].JObj? {
        var i :| 0 <= i < |init| && Truthy(init[i]) && !init[i].JObj?;
        assert entries[i] == init[i];
      }
      if exists i :: 0 <= i < |entries| && Truthy(entries[i]) && !entries[i].JObj? {
        var i :| 0 <= i < |entries| && Truthy(entries[i]) && !entries[i].JObj?;
        if i < |init| { assert init[i] == entries[i]; }
      }
    }
  }

  /** The loop keeps at most one message per entry, each with a non-blank content. */
  lemma {:induction false} HistoryBounded(entries: seq<Json>)
    requires History(entries).Ok?
    ensures |History(entries).value| <= |entries|
    ensures forall j :: 0 <= j < |History(entries).value| ==> !IsBlank(History(entries).value[j].content)
  {
    if entries != [] {
      HistoryBounded(entries[..|entries| - 1]);
    }
  }

  /** A single user message with the stripped text, when it is not blank. */
  function UserTurn(text: string): seq<Message> {
    if Strip(text) != "" then [Message("user", Strip(text))] else []
  }

  /** At most one user message, whose content is stripped and not blank. */
  lemma UserTurnShape(text: string)
    ensures |UserTurn(text)| <= 1
    ensures |UserTurn(text)| == 1 <==> !IsBlank(text)
    ensures |UserTurn(text)| == 1 ==>
      var m := UserTurn(text)[0];
      m.role == "user" && Strip(m.content) == m.content && !IsBlank(m.content)
  {
    StripIdempotent(text);
    StripEmptyIffBlank(text);
    StripEmptyIffBlank(Strip(text));
  }

  /** The fallback chain: the first truthy of `message`/`prompt`, stripped,
      when it is a non-blank string; else the stripped raw text. A
      non-dict payload only has the raw text. */
  function FallbackMessages(payload: Json, rawText: string): seq<Message> {
    if payload.JObj? then
      var f := payload.fields;
      var msg := if Truthy(Get(f, "message")) then Get(f, "message") else Get(f, "prompt");
      if msg.JStr? && Strip(msg.s) != "" then UserTurn(msg.s) else UserTurn(rawText)
    else UserTurn(rawText)
  }

  /** A dict payload whose `messages` is a non-empty list. */
  predicate HasMessageArray(payload: Json) {
    payload.JObj? && Get(payload.fields, "messages").JArr? && Get(payload.fields, "messages").items != []
  }

  /** The messages after the system message. */
  function ConversationMessages(payload: Json, rawText: string): Result<seq<Message>> {
    if HasMessageArray(payload) then History(payload.fields["messages"].items)
    else Ok(FallbackMessages(payload, rawText))
  }

  /** `build_req_from_payload(payload, raw_text)`, with a non-dict payload
      (None in the source) standing for plain-text input. */
  function BuildRequest(payload: Json, rawText: string): Result<ChatRequest> {
    match ConversationMessages(payload, rawText)
    case Err(e) => Err(e)
    case Ok(ms) => Ok(ChatRequest(ChosenModel(payload), [SystemMessage] + ms, ChosenTemperature(payload), ChosenMaxTokens(payload)))
  }

  /** The `for m in arr` loop: appends each kept entry to the builder's
      messages, and stops with the exception the first malformed entry raises. */
  method AddHistory(b: ChatRequestBuilder, entries: seq<Json>) returns (failure: Option<Error>)
    modifies b`messages
    ensures failure.None? <==> History(entries).Ok?
    ensures History(entries).Err? ==> failure == Some(History(entries).error)
    ensures History(entries).Ok? ==> b.messages == old(b.messages) + History(entries).value
  {
    var i := 0;
    while i < |entries|
      invariant 0 <= i <= |entries|
      invariant History(entries[..i]).Ok?
      invariant b.messages == old(b.messages) + History(entries[..i]).value
    {
      assert entries[..i + 1][..i] == entries[..i];
      assert History(entries[..i + 1]) == HistoryStep(History(entries[..i]), entries[i]);
      var d := OrEmptyDict(entries[i]);
      if d.Err? {
        HistoryErrExtends(entries, i + 1);
        return Some(d.error);
      }
      var role := Get(d.value, "role");
      var content := Get(d.value, "content");
      if role.JStr? && content.JStr? && Strip(content.s) != "" {
        b.AddMessage(role.s, content.s);
      }
      i := i + 1;
    }
    assert entries[..|entries|] == entries;
    return None;
  }

  /** `build_req_from_payload` driving the builder step by step. */
  method BuildReqFromPayload(payload: Json, rawText: string) returns (r: Result<ChatRequest>)
    ensures r == BuildRequest(payload, rawText)
  {
    var b: ChatRequestBuilder := new ChatRequestBuilder();

    var model := JNull;
    if payload.JObj? {
      model := Get(payload.fields, "model");
    }
    b.SetModel(if Truthy(model) then model else JStr(LlmClients.DefaultModel));

    if payload.JObj? {
      var f := payload.fields;
      if "temperature" in f && (f["temperature"].JInt? || f["temperature"].JFloat? || f["temperature"].JBool?) {
        b.SetTemperature(PyFloat(f["temperature"]));
      }
      var mt := MaxTokensCandidate(f);
      if mt.JInt? {
        b.SetMaxCompletionTokens(mt.i);
      }
    }

    b.AddMessage("system", SystemPrompt);
    assert b.model == ChosenModel(payload) && b.temperature == ChosenTemperature(payload);
    assert b.maxCompletionTokens == ChosenMaxTokens(payload);
    assert b.messages == [SystemMessage];

    if payload.JObj? {
      var arr := Get(payload.fields, "messages");
      if arr.JArr? && arr.items != [] {
        var failure := AddHistory(b, arr.items);
        if failure.Some? {
          return Err(failure.value);
        }
      } else {
        var msg := Get(payload.fields, "message");
        if !Truthy(msg) {
          msg := Get(payload.fields, "prompt");
        }
        if msg.JStr? && Strip(msg.s) != "" {
          b.AddMessage("user", Strip(msg.s));
        } else if Strip(rawText) != "" {
          b.AddMessage("user", Strip(rawText));
        }
      }
    } else if Strip(rawText) != "" {
      b.AddMessage("user", Strip(rawText));
    }

    assert b.messages == [SystemMessage] + ConversationMessages(payload, rawText).value;
    var req := b.Build();
    r := Ok(req);
  }

  /** Every built request starts with the fixed system message, and its
      model is never empty, so routing never falls back to the default. */
  lemma RequestStartsWithSystem(payload: Json, rawText: string)
    requires BuildRequest(payload, rawText).Ok?
    ensures var req := BuildRequest(payload, rawText).value;
      |req.messages| >= 1 && req.messages[0] == SystemMessage && Truthy(req.model)
  {
  }

  /** Building fails exactly when `messages` is a non-empty list holding a
      truthy entry that is not a dict. */
  lemma BuildFailsIff(payload: Json, rawText: string)
    ensures BuildRequest(payload, rawText).Err? <==>
      HasMessageArray(payload)
      && exists i :: 0 <= i < |payload.fields["messages"].items|
           && Truthy(payload.fields["messages"].items[i]) && !payload.fields["messages"].items[i].JObj?
  {
    if HasMessageArray(payload) {
      HistoryFailsIff(payload.fields["messages"].items);
    }
  }

  /** A non-empty `messages` list shadows `message`, `prompt` and the raw
      text, even when every entry is rejected: changing any of them
      changes nothing. */
  lemma MessageArrayShadowsFallbacks(fields: map<string, Json>, raw1: string, raw2: string, message: Json, prompt: Json)
    requires HasMessageArray(JObj(fields))
    ensures BuildRequest(JObj(fields), raw1) == BuildRequest(JObj(fields["message" := message]["prompt" := prompt]), raw2)
  {
    var fields' := fields["message" := message]["prompt" := prompt];
    assert Get(fields', "messages") == Get(fields, "messages");
    assert ChosenModel(JObj(fields')) == ChosenModel(JObj(fields));
    assert ChosenTemperature(JObj(fields')) == ChosenTemperature(JObj(fields));
    assert MaxTokensCandidate(fields') == MaxTokensCandidate(fields);
  }

  /** With the message list, the kept entries follow the system message in
      order and unchanged, and there are no more of them than entries. */
  lemma MessageArrayKeepsOrder(fields: map<string, Json>, rawText: string, a: seq<Json>, b: seq<Json>)
    requires Get(fields, "messages") == JArr(a + b) && a + b != []
    requires History(a).Ok? && History(b).Ok?
    ensures BuildRequest(JObj(fields), rawText) ==
      Ok(ChatRequest(ChosenModel(JObj(fields)), [SystemMessage] + History(a).value + History(b).value,
                     ChosenTemperature(JObj(fields)), ChosenMaxTokens(JObj(fields))))
    ensures |BuildRequest(JObj(fields), rawText).value.messages| <= 1 + |a| + |b|
  {
    assert HasMessageArray(JObj(fields));
    assert ConversationMessages(JObj(fields), rawText) == History(a + b);
    HistoryAppend(a, b);
    HistoryBounded(a + b);
    var ha, hb := History(a).value, History(b).value;
    assert [SystemMessage] + (ha + hb) == [SystemMessage] + ha + hb;
  }

  /** Without a message list there are at most two messages: the system
      message and a user message whose content is already stripped and is
      not blank. */
  lemma FallbackAtMostTwo(payload: Json, rawText: string)
    requires !HasMessageArray(payload)
    ensures BuildRequest(payload, rawText).Ok?
    ensures var ms := BuildRequest(payload, rawText).value.messages;
      && 1 <= |ms| <= 2
      && (|ms| == 2 ==> ms[1].role == "user" && Strip(ms[1].content) == ms[1].content && !IsBlank(ms[1].content))
  {
    UserTurnShape(rawText);
    if payload.JObj? {
      var f := payload.fields;
      var msg := if Truthy(Get(f, "message")) then Get(f, "message") else Get(f, "prompt");
      if msg.JStr? {
        UserTurnShape(msg.s);
      }
    }
  }

  /** A payload that is not a dict gives the default model, no sampling
      fields, and the stripped raw text as the only user message when it
      is not blank. */
  lemma PlainTextRequest(payload: Json, rawText: string)
    requires !payload.JObj?
    ensures BuildRequest(payload, rawText) ==
      Ok(ChatRequest(JStr(LlmClients.DefaultModel),
                     [SystemMessage] + (if IsBlank(rawText) then [] else [Message("user", Strip(rawText))]),
                     None, None))
  {
    StripEmptyIffBlank(rawText);
  }

  /** A dict without a message list: a non-blank string `message` wins over
      `prompt` and the raw text, and is stripped. */
  lemma MessageKeyWins(fields: map<string, Json>, rawText: string, text: string)
    requires !HasMessageArray(JObj(fields))
    requires "message" in fields && fields["message"] == JStr(text) && !IsBlank(text)
    ensures BuildRequest(JObj(fields), rawText).value.messages == [SystemMessage, Message("user", Strip(text))]
  {
    StripEmptyIffBlank(text);
  }

  /** A truthy `message` that is not a usable string blocks `prompt`: the
      raw text is used instead. */
  lemma TruthyMessageBlocksPrompt(fields: map<string, Json>, rawText: string)
    requires !HasMessageArray(JObj(fields))
    requires "message" in fields && Truthy(fields["message"])
    requires !fields["message"].JStr? || IsBlank(fields["message"].s)
    ensures BuildRequest(JObj(fields), rawText).value.messages == [SystemMessage] + UserTurn(rawText)
  {
    if fields["message"].JStr? {
      StripEmptyIffBlank(fields["message"].s);
    }
  }

  /** A dict without a message list and with a falsy `message`: a non-blank
      string `prompt` becomes the stripped user turn. */
  lemma PromptUsed(fields: map<string, Json>, rawText: string, text: string)
    requires !HasMessageArray(JObj(fields))
    requires !Truthy(Get(fields, "message"))
    requires "prompt" in fields && fields["prompt"] == JStr(text) && !IsBlank(text)
    ensures BuildRequest(JObj(fields), rawText).value.messages == [SystemMessage, Message("user", Strip(text))]
  {
    StripEmptyIffBlank(text);
  }

  /** A dict without a message list whose first truthy of `message` and
      `prompt` is not a non-blank string falls back to the raw text. */
  lemma RawTextUsed(fields: map<string, Json>, rawText: string)
    requires !HasMessageArray(JObj(fields))
    requires var msg := if Truthy(Get(fields, "message")) then Get(fields, "message") else Get(fields, "prompt");
      !(msg.JStr? && !IsBlank(msg.s))
    ensures BuildRequest(JObj(fields), rawText).value.messages == [SystemMessage] + UserTurn(rawText)
  {
    var msg := if Truthy(Get(fields, "message")) then Get(fields, "message") else Get(fields, "prompt");
    if msg.JStr? {
      StripEmptyIffBlank(msg.s);
    }
  }

  /** `{"model": "qwen-plus", "message": "你好"}` builds the system message
      and one user message, has no sampling fields, and goes to DashScope. */
  lemma GreetingExample(rawText: string)
    ensures BuildRequest(JObj(map["model" := JStr("qwen-plus"), "message" := JStr("你好")]), rawText)
      == Ok(ChatRequest(JStr("qwen-plus"), [SystemMessage, Message("user", "你好")], None, None))
    ensures LlmClients.Route(BuildRequest(JObj(map["model" := JStr("qwen-plus"), "message" := JStr("你好")]), rawText).value)
      == Ok(LlmClients.DashScope)
  {
    var payload := JObj(map["model" := JStr("qwen-plus"), "message" := JStr("你好")]);
    GreetingFields(rawText);
    assert [SystemMessage] + [Message("user", "你好")] == [SystemMessage, Message("user", "你好")];
    LlmClients.RouteRule(BuildRequest(payload, rawText).value);
  }

  /** The parts of the greeting request, one by one. */
  lemma GreetingFields(rawText: string)
    ensures ConversationMessages(JObj(map["model" := JStr("qwen-plus"), "message" := JStr("你好")]), rawText)
      == Ok([Message("user", "你好")])
    ensures ChosenModel(JObj(map["model" := JStr("qwen-plus"), "message" := JStr("你好")])) == JStr("qwen-plus")
    ensures ChosenTemperature(JObj(map["model" := JStr("qwen-plus"), "message" := JStr("你好")])) == None
    ensures ChosenMaxTokens(JObj(map["model" := JStr("qwen-plus"), "message" := JStr("你好")])) == None
  {
    var fields := map["model" := JStr("qwen-plus"), "message" := JStr("你好")];
    assert "messages" !in fields;
    assert Get(fields, "message") == JStr("你好");
    StripUntrimmed("你好");
  }
}
