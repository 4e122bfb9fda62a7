/** The summary endpoint (`POST /api/summary`): the message list and the
    request it assembles from the conversation records, and the stripped
    reply it returns. The backend call is `smart_call` with its HTTP
    exchange `post` and body rendering `show` as parameters. */
module Summary {
  import opened PyValues
  import opened PyText
  import opened ChatModels
  import LlmClients

  /** One conversation record. The schema restricts `role` to system, user,
      assistant or tool; the endpoint copies it unchanged whatever it is. */
  datatype Record = Record(role: string, content: string)

  /** The request body. The schema's defaults (`style` "brief",
      `max_tokens` 512, `temperature` 0.3) are applied before the endpoint
      runs; this model takes the values as received. */
  datatype SummaryReq = SummaryReq(
    model: Option<string>,
    records: seq<Record>,
    prompt: Option<string>,
    style: string,
    maxTokens: Option<int>,
    temperature: Option<real>)

  datatype SummaryResp = SummaryResp(summary: string)

  const SystemSummary: string :=
    "你是一个严谨的会议与对话总结助手。请基于提供的历史对话，输出高质量的中文摘要。保持客观、去除寒暄，突出要点、结论与后续行动。"

  /** The style notes, keyed by style name. */
  const StyleTpl: map<string, string> := map[
    "brief" := "以不超过 8 行的精炼段落概括关键信息与结论。",
    "bullet" := "使用有序要点输出：1) 关键结论 2) 证据/细节 3) 风险或分歧 4) 待办与责任人。",
    "action" := "仅输出行动清单（谁在何时做什么，成功判定标准）。",
    "daily" := "以日报格式输出：今日进展/问题/明日计划/需协助。"]

  const DefaultPrompt: string := "请对以下对话进行总结。"

  const EmptyRecordsDetail: string := "records 不能为空"

  /** `STYLE_TPL.get(style, STYLE_TPL["brief"])` */
  function StyleNote(style: string): string {
    if style in StyleTpl then StyleTpl[style] else StyleTpl["brief"]
  }

  /** `body.prompt or "请对以下对话进行总结。"` */
  function UserPrompt(prompt: Option<string>): string {
    if prompt.Some? && prompt.value != "" then prompt.value else DefaultPrompt
  }

  /** `body.model or DEFAULT_MODEL` */
  function SummaryModel(model: Option<string>): string {
    if model.Some? && model.value != "" then model.value else LlmClients.DefaultModel
  }

  /** One message per record, in order, role and content unchanged. */
  function RecordMessages(records: seq<Record>): (ms: seq<Message>)
    ensures |ms| == |records|
    ensures forall i :: 0 <= i < |records| ==> ms[i] == Message(records[i].role, records[i].content)
  {
    if records == [] then []
    else RecordMessages(records[..|records| - 1]) + [Message(records[|records| - 1].role, records[|records| - 1].content)]
  }

  /** The system message with the style note, the user prompt, then the records. */
  function SummaryMessages(body: SummaryReq): seq<Message> {
    [Message("system", SystemSummary + StyleNote(body.style)), Message("user", UserPrompt(body.prompt))]
    + RecordMessages(body.records)
  }

  /** The request `summarize` hands to `smart_call`, or the 400 it raises
      first when there are no records. */
  function SummaryRequest(body: SummaryReq): Result<ChatRequest> {
    if body.records == [] then Err(HttpError(400, EmptyRecordsDetail))
    else
      Ok(ChatRequest(JStr(SummaryModel(body.model)), SummaryMessages(body), body.temperature, body.maxTokens))
  }

  /** `summarize` up to the backend call: the empty-records check, then the
      message list built by appending each record in a loop. */
  method BuildSummaryRequest(body: SummaryReq) returns (r: Result<ChatRequest>)
    ensures r == SummaryRequest(body)
  {
    if body.records == [] {
      return Err(HttpError(400, EmptyRecordsDetail));
    }
    var head := [Message("system", SystemSummary + StyleNote(body.style)), Message("user", UserPrompt(body.prompt))];
    var messages := head;
    var i := 0;
    while i < |body.records|
      invariant 0 <= i <= |body.records|
      invariant messages == head + RecordMessages(body.records[..i])
    {
      var rec := body.records[i];
      messages := messages + [Message(rec.role, rec.content)];
      assert body.records[..i + 1][..i] == body.records[..i];
      i := i + 1;
    }
    assert body.records[..|body.records|] == body.records;
    r := Ok(ChatRequest(JStr(SummaryModel(body.model)), messages, body.temperature, body.maxTokens));
  }

  /** `summarize`: the request, the backend reply, and that reply with its
      surrounding whitespace stripped. */
  function Summarize(body: SummaryReq, post: (LlmClients.Backend, Json) -> LlmClients.HttpResponse,
                     show: Json -> string): Result<SummaryResp> {
    match SummaryRequest(body)
    case Err(e) => Err(e)
    case Ok(req) =>
      match LlmClients.SmartCall(req, post, show)
      case Err(e) => Err(e)
      case Ok(text) => Ok(SummaryResp(Strip(text)))
  }

  /** No records: a 400 whatever the backend would have answered, so no
      backend call shapes the outcome. */
  lemma EmptyRecordsRejected(body: SummaryReq, post: (LlmClients.Backend, Json) -> LlmClients.HttpResponse,
                             show: Json -> string)
    requires body.records == []
    ensures Summarize(body, post, show) == Err(HttpError(400, EmptyRecordsDetail))
  {
  }

  /** Each known style has its own note; an unknown one gets the brief note. */
  lemma StyleNoteFallback(style: string)
    ensures style in StyleTpl ==> StyleNote(style) == StyleTpl[style]
    ensures style !in StyleTpl ==> StyleNote(style) == StyleTpl["brief"]
    ensures StyleNote("bullet") != StyleNote("brief")
  {
  }

  /** A missing or empty prompt gives the default prompt; any other prompt
      is used as it is. */
  lemma UserPromptDefault(prompt: Option<string>)
    ensures prompt == None || prompt == Some("") ==> UserPrompt(prompt) == DefaultPrompt
    ensures prompt.Some? && prompt.value != "" ==> UserPrompt(prompt) == prompt.value
  {
  }

  /** The message list: the system message carrying the summary
      instructions and the style note, the user prompt, then every record
      in order, unchanged: 2 + |records| messages. */
  lemma SummaryMessagesShape(body: SummaryReq)
    ensures var ms := SummaryMessages(body);
      && |ms| == 2 + |body.records|
      && ms[0] == Message("system", SystemSummary + StyleNote(body.style))
      && ms[1] == Message("user", UserPrompt(body.prompt))
      && forall i :: 0 <= i < |body.records| ==> ms[2 + i] == Message(body.records[i].role, body.records[i].content)
  {
  }

  /** The request carries the given model (the default for a missing or
      empty one) and passes temperature and max tokens through unchanged;
      its model is always a non-empty string, so routing never fails. */
  lemma SummaryRequestFields(body: SummaryReq)
    requires body.records != []
    ensures SummaryRequest(body).Ok?
    ensures var req := SummaryRequest(body).value;
      && req.model == JStr(if body.model.Some? && body.model.value != "" then body.model.value else LlmClients.DefaultModel)
      && req.temperature == body.temperature
      && req.maxCompletionTokens == body.maxTokens
      && LlmClients.Route(req).Ok?
  {
    LlmClients.RouteRule(SummaryRequest(body).value);
  }

  /** The returned summary is the backend reply with surrounding whitespace
      stripped: it neither starts nor ends with whitespace. */
  lemma SummaryIsStripped(body: SummaryReq, post: (LlmClients.Backend, Json) -> LlmClients.HttpResponse,
                          show: Json -> string)
    requires Summarize(body, post, show).Ok?
    ensures LlmClients.SmartCall(SummaryRequest(body).value, post, show).Ok?
    ensures var s := Summarize(body, post, show).value.summary;
      && s == Strip(LlmClients.SmartCall(SummaryRequest(body).value, post, show).value)
      && (s != "" ==> !IsSpace(s[0]) && !IsSpace(s[|s| - 1]))
  {
    StripSlice(LlmClients.SmartCall(SummaryRequest(body).value, post, show).value);
  }
}
