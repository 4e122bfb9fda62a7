/** The backend dispatcher: reply extraction from the OpenAI and DashScope
    response envelopes, the model-name routing rule, the two vendor request
    bodies and the status check. The HTTP exchange itself is a parameter
    `post`, and Python's `str(data)` rendering is a parameter `show`. */
module LlmClients {
  import opened PyValues
  import opened PyText
  import opened ChatModels

  /** `DEFAULT_MODEL` of the configuration. */
  const DefaultModel: string := "qwen-plus"

  /** The vendor a request is sent to. */
  datatype Backend = OpenAI | DashScope

  /** What `client.post` gives back: the status code, `r.text`, and
      `r.json()` (None when the body is not JSON and `r.json()` raises). */
  datatype HttpResponse = HttpResponse(status: int, text: string, json: Option<Json>)

  // ---------------------------------------------------------------------
  // Reply extraction
  // ---------------------------------------------------------------------

  /** A content part that contributes to the reply: a dict whose `type` is
      `"text"` and whose `text` is a string. */
  predicate IsTextPart(part: Json) {
    part.JObj? && Get(part.fields, "type") == JStr("text") && Get(part.fields, "text").JStr?
  }

  /** The `parts` list the loop builds: the `text` of every text part, in order. */
  function TextParts(content: seq<Json>): seq<string> {
    if content == [] then []
    else
      var last := content[|content| - 1];
      TextParts(content[..|content| - 1]) + (if IsTextPart(last) then [last.fields["text"].s] else [])
  }

  /** Collecting text parts distributes over concatenation, so the parts
      keep the order of the content list. */
  lemma {:induction false} TextPartsAppend(a: seq<Json>, b: seq<Json>)
    ensures TextParts(a + b) == TextParts(a) + TextParts(b)
  {
    if b != [] {
      var b' := b[..|b| - 1];
      TextPartsAppend(a, b');
      assert (a + b)[..|a + b| - 1] == a + b';
      assert (a + b)[|a + b| - 1] == b[|b| - 1];
    } else {
      assert a + b == a;
    }
  }

  /** No text is collected exactly when no part is a text part. */
  lemma {:induction false} TextPartsEmptyIff(content: seq<Json>)
    ensures TextParts(content) == [] <==> forall i :: 0 <= i < |content| ==> !IsTextPart(content[i])
  {
    if content != [] {
      var init := content[..|content| - 1];
      TextPartsEmptyIff(init);
      if TextParts(content) == [] {
        forall i | 0 <= i < |content| ensures !IsTextPart(content[i]) {
          if i < |init| { assert content[i] == init[i]; }
        }
      }
    }
  }

  /** The `for part in content` loop of `_extract_text_from_choices`. */
  method CollectTextParts(content: seq<Json>) returns (parts: seq<string>)
    ensures parts == TextParts(content)
  {
    parts := [];
    var i := 0;
    while i < |content|
      invariant 0 <= i <= |content|
      invariant parts == TextParts(content[..i])
    {
      var part := content[i];
      if part.JObj? && Get(part.fields, "type") == JStr("text") {
        var t := Get(part.fields, "text");
        if t.JStr? {
          parts := parts + [t.s];
        }
      }
      assert content[..i + 1][..i] == content[..i];
      i := i + 1;
    }
    assert content[..|content|] == content;
  }

  /** `_extract_text_from_choices(choices)`: Ok(None) where Python returns
      None, Ok(Some(s)) where it returns the string s, Err where a `.get`
      on a truthy non-dict raises. */
  function ChoiceText(choices: Json): Result<Option<string>> {
    if !(choices.JArr? && choices.items != []) then Ok(None)
    else
      match OrEmptyDict(choices.items[0])
      case Err(e) => Err(e)
      case Ok(ch0) =>
        match OrEmptyDict(Get(ch0, "message"))
        case Err(e) => Err(e)
        case Ok(msg) =>
          var content := Get(msg, "content");
          var text := Get(ch0, "text");
          if content.JStr? && content.s != "" then Ok(Some(content.s))
          else if content.JArr? && TextParts(content.items) != [] then Ok(Some(Concat(TextParts(content.items))))
          else if text.JStr? && text.s != "" then Ok(Some(text.s))
          else Ok(None)
  }

  /** Anything but a non-empty list of choices gives None. */
  lemma ChoiceTextNeedsNonEmptyList(choices: Json)
    requires !(choices.JArr? && choices.items != [])
    ensures ChoiceText(choices) == Ok(None)
  {
  }

  /** The step-by-step `_extract_text_from_choices`, with its parts loop. */
  method ExtractTextFromChoices(choices: Json) returns (r: Result<Option<string>>)
    ensures r == ChoiceText(choices)
  {
    if !(choices.JArr? && choices.items != []) {
      return Ok(None);
    }
    var ch0 := OrEmptyDict(choices.items[0]);
    if ch0.Err? {
      return Err(ch0.error);
    }
    var msg := OrEmptyDict(Get(ch0.value, "message"));
    if msg.Err? {
      return Err(msg.error);
    }
    var content := Get(msg.value, "content");
    if content.JStr? && content.s != "" {
      return Ok(Some(content.s));
    }
    if content.JArr? {
      var parts := CollectTextParts(content.items);
      if parts != [] {
        return Ok(Some(Concat(parts)));
      }
    }
    var text := Get(ch0.value, "text");
    if text.JStr? && text.s != "" {
      return Ok(Some(text.s));
    }
    return Ok(None);
  }

  /** Extraction from `choices` raises exactly when the list is non-empty
      and its first element, or that element's `message`, is a truthy
      value that is not a dict. */
  lemma ChoiceTextFailsIff(choices: Json)
    ensures ChoiceText(choices).Err? <==>
      && choices.JArr? && choices.items != []
      && var ch0 := choices.items[0];
         (Truthy(ch0) && !ch0.JObj?)
         || (ch0.JObj? && Truthy(Get(ch0.fields, "message")) && !Get(ch0.fields, "message").JObj?)
    ensures ChoiceText(choices).Err? ==> ChoiceText(choices).error == NoGetAttribute
  {
  }

  /** The first choice's `message.content`, when a non-empty string, is the text. */
  lemma ChoiceTextStringContent(choices: seq<Json>, ch0: map<string, Json>, msg: map<string, Json>, s: string)
    requires choices != [] && choices[0] == JObj(ch0)
    requires "message" in ch0 && ch0["message"] == JObj(msg)
    requires "content" in msg && msg["content"] == JStr(s) && s != ""
    ensures ChoiceText(JArr(choices)) == Ok(Some(s))
  {
  }

  /** A content list gives the in-order join of its text parts, as soon as
      there is at least one text part. */
  lemma ChoiceTextParts(choices: seq<Json>, ch0: map<string, Json>, msg: map<string, Json>, content: seq<Json>)
    requires choices != [] && choices[0] == JObj(ch0)
    requires "message" in ch0 && ch0["message"] == JObj(msg)
    requires "content" in msg && msg["content"] == JArr(content)
    requires exists i :: 0 <= i < |content| && IsTextPart(content[i])
    ensures ChoiceText(JArr(choices)) == Ok(Some(Concat(TextParts(content))))
  {
    TextPartsEmptyIff(content);
  }

  /** When the content gives nothing (missing, an empty string, another
      type, or a list without text parts), the choice's own non-empty
      `text` is used. */
  lemma ChoiceTextFallback(choices: seq<Json>, ch0: map<string, Json>, t: string)
    requires choices != [] && choices[0] == JObj(ch0)
    requires !Truthy(Get(ch0, "message")) || Get(ch0, "message").JObj?
    requires var content := Get(OrEmptyDict(Get(ch0, "message")).value, "content");
      !(content.JStr? && content.s != "")
      && (content.JArr? ==> forall i :: 0 <= i < |content.items| ==> !IsTextPart(content.items[i]))
    requires "text" in ch0 && ch0["text"] == JStr(t) && t != ""
    ensures ChoiceText(JArr(choices)) == Ok(Some(t))
  {
    var content := Get(OrEmptyDict(Get(ch0, "message")).value, "content");
    if content.JArr? {
      TextPartsEmptyIff(content.items);
    }
  }

  /** The only way extraction from `choices` returns an empty string: the
      content is a list whose text parts are all empty. The choice's own
      `text` is then not consulted, because the source tests the list of
      parts, not their join. */
  lemma ChoiceTextEmptyOnlyFromEmptyParts(choices: Json)
    requires ChoiceText(choices) == Ok(Some(""))
    ensures choices.JArr? && choices.items != [] && choices.items[0].JObj?
    ensures var msg := OrEmptyDict(Get(choices.items[0].fields, "message")).value;
      && Get(msg, "content").JArr?
      && var parts := TextParts(Get(msg, "content").items);
         parts != [] && forall i :: 0 <= i < |parts| ==> parts[i] == ""
  {
    var msg := OrEmptyDict(Get(choices.items[0].fields, "message")).value;
    var content := Get(msg, "content");
    assert content.JArr? && TextParts(content.items) != [];
    ConcatEmptyIff(TextParts(content.items));
  }

  /** Python's `if text:` on the `str | None` the choice extraction returns. */
  predicate HasText(t: Option<string>) {
    t.Some? && t.value != ""
  }

  /** `extract_reply(data)`: OpenAI `choices` first, then DashScope
      `output.text`, then `output.choices`, and else `str(data)`. */
  function ExtractReply(data: Json, show: Json -> string): Result<string> {
    var fromChoices := if data.JObj? && "choices" in data.fields then ChoiceText(data.fields["choices"]) else Ok(None);
    if fromChoices.Err? then Err(fromChoices.error)
    else if HasText(fromChoices.value) then Ok(fromChoices.value.value)
    else if data.JObj? && "output" in data.fields && data.fields["output"].JObj? then
      var out := data.fields["output"].fields;
      var text := Get(out, "text");
      if text.JStr? && text.s != "" then Ok(text.s)
      else
        var fromOutput := if "choices" in out then ChoiceText(out["choices"]) else Ok(None);
        if fromOutput.Err? then Err(fromOutput.error)
        else if HasText(fromOutput.value) then Ok(fromOutput.value.value)
        else Ok(show(data))
    else Ok(show(data))
  }

  /** Text found under the top-level `choices` wins over anything under `output`. */
  lemma ReplyPrefersChoices(data: map<string, Json>, show: Json -> string, s: string)
    requires "choices" in data && ChoiceText(data["choices"]) == Ok(Some(s)) && s != ""
    ensures ExtractReply(JObj(data), show) == Ok(s)
  {
  }

  /** When `choices` gives no text, a non-empty `output.text` wins over
      `output.choices`. */
  lemma ReplyPrefersOutputText(data: map<string, Json>, out: map<string, Json>, show: Json -> string, t: string)
    requires "choices" in data ==> ChoiceText(data["choices"]).Ok? && !HasText(ChoiceText(data["choices"]).value)
    requires "output" in data && data["output"] == JObj(out)
    requires "text" in out && out["text"] == JStr(t) && t != ""
    ensures ExtractReply(JObj(data), show) == Ok(t)
  {
  }

  /** `output.choices` is read with the same rule as the top-level `choices`. */
  lemma ReplyFromOutputChoices(data: map<string, Json>, out: map<string, Json>, show: Json -> string, s: string)
    requires "choices" in data ==> ChoiceText(data["choices"]).Ok? && !HasText(ChoiceText(data["choices"]).value)
    requires "output" in data && data["output"] == JObj(out)
    requires !(Get(out, "text").JStr? && Get(out, "text").s != "")
    requires "choices" in out && ChoiceText(out["choices"]) == Ok(Some(s)) && s != ""
    ensures ExtractReply(JObj(data), show) == Ok(s)
  {
  }

  /** A body from which no shape yields text is rendered whole: `choices`
      gives no text, `output.text` is not a non-empty string, and
      `output.choices` gives no text, each without raising. */
  lemma ReplyFallsBackToRendering(data: Json, show: Json -> string)
    requires data.JObj? && "choices" in data.fields ==>
      ChoiceText(data.fields["choices"]).Ok? && !HasText(ChoiceText(data.fields["choices"]).value)
    requires data.JObj? && "output" in data.fields && data.fields["output"].JObj? ==>
      var out := data.fields["output"].fields;
      && !(Get(out, "text").JStr? && Get(out, "text").s != "")
      && ("choices" in out ==> ChoiceText(out["choices"]).Ok? && !HasText(ChoiceText(out["choices"]).value))
    ensures ExtractReply(data, show) == Ok(show(data))
  {
  }

  /** Whatever the body, the reply is a non-empty extracted text or the
      rendering of the whole body; the only failure is a `.get` on a
      malformed choice. */
  lemma ReplyIsTextOrRendering(data: Json, show: Json -> string)
    ensures ExtractReply(data, show).Ok? ==>
      ExtractReply(data, show).value != "" || ExtractReply(data, show).value == show(data)
    ensures ExtractReply(data, show).Err? ==> ExtractReply(data, show).error == NoGetAttribute
    ensures ExtractReply(data, show).Err? ==>
      (data.JObj? && "choices" in data.fields && ChoiceText(data.fields["choices"]).Err?)
      || (data.JObj? && "output" in data.fields && data.fields["output"].JObj?
          && "choices" in data.fields["output"].fields
          && ChoiceText(data.fields["output"].fields["choices"]).Err?)
  {
    if data.JObj? && "choices" in data.fields {
      ChoiceTextFailsIff(data.fields["choices"]);
    }
    if data.JObj? && "output" in data.fields && data.fields["output"].JObj?
       && "choices" in data.fields["output"].fields {
      ChoiceTextFailsIff(data.fields["output"].fields["choices"]);
    }
  }

  /** The three example envelopes: an OpenAI reply, a DashScope reply and
      an unknown shape. */
  lemma ReplyExamples(show: Json -> string)
    ensures ExtractReply(JObj(map["choices" := JArr([JObj(map["message" := JObj(map["content" := JStr("hello")])])])]), show)
      == Ok("hello")
    ensures ExtractReply(JObj(map["output" := JObj(map["text" := JStr("world")])]), show) == Ok("world")
    ensures ExtractReply(JObj(map["foo" := JInt(1)]), show) == Ok(show(JObj(map["foo" := JInt(1)])))
  {
    var ch0 := map["message" := JObj(map["content" := JStr("hello")])];
    ChoiceTextStringContent([JObj(ch0)], ch0, map["content" := JStr("hello")], "hello");
  }

  // ---------------------------------------------------------------------
  // Routing
  // ---------------------------------------------------------------------

  /** `req.model or DEFAULT_MODEL` */
  function EffectiveModel(model: Json): (m: Json)
    ensures Truthy(m)
    ensures Truthy(model) ==> m == model
    ensures !Truthy(model) ==> m == JStr(DefaultModel)
  {
    if Truthy(model) then model else JStr(DefaultModel)
  }

  /** `smart_call`'s choice: the effective model, lower-cased, starting with
      `"gpt-"` goes to OpenAI, anything else to DashScope; `.lower()` on a
      model that is not a string raises. */
  function Route(req: ChatRequest): Result<Backend> {
    var m := EffectiveModel(req.model);
    if !m.JStr? then Err(NoLowerAttribute)
    else if StartsWith(Lower(m.s), "gpt-") then Ok(OpenAI)
    else Ok(DashScope)
  }

  /** A name starting with `gpt-` in any letter case. */
  predicate GptName(name: string) {
    && |name| >= 4
    && (name[0] == 'g' || name[0] == 'G')
    && (name[1] == 'p' || name[1] == 'P')
    && (name[2] == 't' || name[2] == 'T')
    && name[3] == '-'
  }

  /** Lower-casing then testing the prefix is a case-insensitive prefix test. */
  lemma LowerStartsWithGpt(name: string)
    ensures StartsWith(Lower(name), "gpt-") <==> GptName(name)
  {
    var low := Lower(name);
    if |name| >= 4 {
      assert low[..4] == [low[0], low[1], low[2], low[3]];
      assert "gpt-" == ['g', 'p', 't', '-'];
    }
  }

  /** The routing rule in full: OpenAI exactly for a string model named
      `gpt-…` in any case; DashScope for a missing or empty model and for
      every other string; a failure for any other truthy model value. */
  lemma RouteRule(req: ChatRequest)
    ensures Route(req) == Ok(OpenAI) <==> req.model.JStr? && GptName(req.model.s)
    ensures Route(req) == Ok(DashScope) <==>
      !Truthy(req.model) || (req.model.JStr? && !GptName(req.model.s))
    ensures Route(req) == Err(NoLowerAttribute) <==> Truthy(req.model) && !req.model.JStr?
  {
    var m := EffectiveModel(req.model);
    if m.JStr? {
      LowerStartsWithGpt(m.s);
      assert !GptName(DefaultModel);
    }
  }

  /** `"GPT-4"` goes to OpenAI; `"qwen-plus"`, a missing model and an empty
      model go to DashScope. */
  lemma RouteExamples(ms: seq<Message>)
    ensures Route(ChatRequest(JStr("GPT-4"), ms, None, None)) == Ok(OpenAI)
    ensures Route(ChatRequest(JStr("gpt-4o"), ms, None, None)) == Ok(OpenAI)
    ensures Route(ChatRequest(JStr("qwen-plus"), ms, None, None)) == Ok(DashScope)
    ensures Route(ChatRequest(JNull, ms, None, None)) == Ok(DashScope)
    ensures Route(ChatRequest(JStr(""), ms, None, None)) == Ok(DashScope)
  {
    RouteRule(ChatRequest(JStr("GPT-4"), ms, None, None));
    RouteRule(ChatRequest(JStr("gpt-4o"), ms, None, None));
    RouteRule(ChatRequest(JStr("qwen-plus"), ms, None, None));
    RouteRule(ChatRequest(JNull, ms, None, None));
    RouteRule(ChatRequest(JStr(""), ms, None, None));
  }

  // ---------------------------------------------------------------------
  // Vendor request bodies and calls
  // ---------------------------------------------------------------------

  /** The DashScope body of `call_qwen`: the model (or the default), the
      messages under `input.messages`, and a `parameters` object that always
      says `result_format: "text"` and holds only the sampling fields that
      are set. */
  function QwenPayload(req: ChatRequest): Json {
    var base := map["result_format" := JStr("text")];
    var withTemperature :=
      if req.temperature.Some? then base["temperature" := JFloat(req.temperature.value)] else base;
    var parameters :=
      if req.maxCompletionTokens.Some?
      then withTemperature["max_tokens" := JInt(req.maxCompletionTokens.value)]
      else withTemperature;
    JObj(map[
      "model" := EffectiveModel(req.model),
      "input" := JObj(map["messages" := JArr(MessagesToJson(req.messages))]),
      "parameters" := JObj(parameters)])
  }

  /** `call_qwen` builds its payload, then writes the optional sampling
      fields into `payload["parameters"]` in place. */
  method BuildQwenPayload(req: ChatRequest) returns (payload: Json)
    ensures payload == QwenPayload(req)
  {
    var msgs := MessagesToJson(req.messages);
    var fields := map[
      "model" := EffectiveModel(req.model),
      "input" := JObj(map["messages" := JArr(msgs)]),
      "parameters" := JObj(map["result_format" := JStr("text")])];
    if req.temperature.Some? {
      var parameters := fields["parameters"].fields;
      fields := fields["parameters" := JObj(parameters["temperature" := JFloat(req.temperature.value)])];
    }
    if req.maxCompletionTokens.Some? {
      var parameters := fields["parameters"].fields;
      fields := fields["parameters" := JObj(parameters["max_tokens" := JInt(req.maxCompletionTokens.value)])];
    }
    payload := JObj(fields);
  }

  /** The DashScope body's shape: its three keys, `result_format` always
      `"text"`, each sampling field present exactly when set, and the very
      messages of the OpenAI body, which read back as the request's messages. */
  lemma QwenPayloadShape(req: ChatRequest)
    ensures QwenPayload(req).JObj? && QwenPayload(req).fields.Keys == {"model", "input", "parameters"}
    ensures var f := QwenPayload(req).fields;
      && f["model"] == EffectiveModel(req.model)
      && f["input"] == JObj(map["messages" := ToDict(req).fields["messages"]])
      && f["parameters"].JObj?
      && var p := f["parameters"].fields;
         && "result_format" in p && p["result_format"] == JStr("text")
         && ("temperature" in p <==> req.temperature.Some?)
         && (req.temperature.Some? ==> p["temperature"] == JFloat(req.temperature.value))
         && ("max_tokens" in p <==> req.maxCompletionTokens.Some?)
         && (req.maxCompletionTokens.Some? ==> p["max_tokens"] == JInt(req.maxCompletionTokens.value))
         && p.Keys <= {"result_format", "temperature", "max_tokens"}
    ensures MessagesFromJson(QwenPayload(req).fields["input"].fields["messages"].items) == Some(req.messages)
  {
    ToDictKeys(req);
    MessagesRoundTrip(req.messages);
  }

  /** The reply of a 200 response; `r.json()` failing on a body that is not JSON. */
  function ReplyOf(resp: HttpResponse, show: Json -> string): Result<string> {
    match resp.json
    case None => Err(BodyNotJson)
    case Some(data) => ExtractReply(data, show)
  }

  /** `call_gpt`: posts `req.to_dict()`; a status other than 200 raises with
      that status and the body text marked as coming from gpt. */
  function CallGpt(req: ChatRequest, post: (Backend, Json) -> HttpResponse, show: Json -> string): Result<string> {
    var resp := post(OpenAI, ToDict(req));
    if resp.status != 200 then Err(HttpError(resp.status, resp.text + " err from gpt"))
    else ReplyOf(resp, show)
  }

  /** `call_qwen`: posts the DashScope body; a status other than 200 raises
      with that status and the body text. */
  function CallQwen(req: ChatRequest, post: (Backend, Json) -> HttpResponse, show: Json -> string): Result<string> {
    var resp := post(DashScope, QwenPayload(req));
    if resp.status != 200 then Err(HttpError(resp.status, resp.text))
    else ReplyOf(resp, show)
  }

  /** `smart_call`: route, then make that backend's call. */
  function SmartCall(req: ChatRequest, post: (Backend, Json) -> HttpResponse, show: Json -> string): Result<string> {
    match Route(req)
    case Err(e) => Err(e)
    case Ok(OpenAI) => CallGpt(req, post, show)
    case Ok(DashScope) => CallQwen(req, post, show)
  }

  /** A non-200 answer is an error carrying its status; OpenAI's detail is
      the body text followed by `" err from gpt"`, DashScope's the body text. */
  lemma NonOkStatusIsError(req: ChatRequest, post: (Backend, Json) -> HttpResponse, show: Json -> string)
    ensures post(OpenAI, ToDict(req)).status != 200 ==>
      CallGpt(req, post, show) == Err(HttpError(post(OpenAI, ToDict(req)).status, post(OpenAI, ToDict(req)).text + " err from gpt"))
    ensures post(DashScope, QwenPayload(req)).status != 200 ==>
      CallQwen(req, post, show) == Err(HttpError(post(DashScope, QwenPayload(req)).status, post(DashScope, QwenPayload(req)).text))
    ensures CallGpt(req, post, show).Err? && CallGpt(req, post, show).error.HttpError? ==>
      post(OpenAI, ToDict(req)).status != 200
    ensures CallQwen(req, post, show).Err? && CallQwen(req, post, show).error.HttpError? ==>
      post(DashScope, QwenPayload(req)).status != 200
  {
  }

  /** `smart_call` makes one exchange: its outcome depends only on the
      answer to the routed backend's body, `to_dict()` for OpenAI and the
      DashScope body otherwise. */
  lemma SmartCallUsesRoutedBody(req: ChatRequest, post1: (Backend, Json) -> HttpResponse,
                                post2: (Backend, Json) -> HttpResponse, show: Json -> string)
    requires Route(req) == Ok(OpenAI) ==> post1(OpenAI, ToDict(req)) == post2(OpenAI, ToDict(req))
    requires Route(req) == Ok(DashScope) ==> post1(DashScope, QwenPayload(req)) == post2(DashScope, QwenPayload(req))
    ensures SmartCall(req, post1, show) == SmartCall(req, post2, show)
  {
  }
}
