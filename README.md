# LLM gateway core, modelled in Dafny

This project models the core of a small chat gateway. The gateway turns a
chat payload into a backend-agnostic `ChatRequest`, sends it to a backend,
and pulls the reply text out of whichever JSON envelope the backend answered
with. `smart_call` routes a request by its model name: names starting with
`gpt-` go to OpenAI, everything else to DashScope. The summary endpoint uses
`smart_call`. The WebSocket chat handler, which is not modelled, does not:
it always sends the request built from a chat payload to DashScope through
`call_qwen`, so `{"model": "gpt-4o", "message": "hi"}` goes to DashScope
there. The modelled pieces are:

- `models/chat_models.py`: `Message` and `ChatRequest`, `to_dict`, and the
  mutable `ChatRequestBuilder`. These are the module `ChatModels` in
  `chat_models.dfy`. The builder is a Dafny `class` whose setters modify only
  their own field.
- `services/builder.py`: `build_req_from_payload`. This is the module
  `RequestBuilder` in `builder.dfy`. The method drives a builder step by step
  and is proved equal to the specification function `BuildRequest`.
- `services/llm_clients.py`: the following functions, in the module
  `LlmClients` in `llm_clients.dfy`:
  - `_extract_text_from_choices`, as a loop method proved against `ChoiceText`.
  - `extract_reply`.
  - The routing of `smart_call`.
  - The request bodies of `call_gpt` and `call_qwen` and their non-200 errors.
- `routers/summary.py`: the request `summarize` assembles, and its stripped
  reply. This is the module `Summary` in `summary.dfy`.

Two support modules model the Python the code relies on:

- `PyValues` (`values.dfy`) covers JSON-decoded values, truthiness,
  `dict.get`, `(x or {})`, and `isinstance(x, int)` accepting `bool`. It also
  models raised exceptions as a `Result`.
- `PyText` (`text.dfy`) covers `str.isspace`, `strip`, `lower`,
  `startswith` and `"".join`.

The HTTP exchange is a parameter `post: (Backend, Json) -> HttpResponse`.
`str(data)`, the last resort of `extract_reply`, is a parameter
`show: Json -> string`.

`_extract_text_from_choices` tests `if parts:`, which asks whether the list
of collected parts is non-empty. A content list whose only text part is `""`
therefore yields `""`, and `choices[0].text` is not consulted;
`LlmClients.ChoiceTextEmptyOnlyFromEmptyParts` states this.

## Model

| member | source | states |
|---|---|---|
| PyValues.OrEmptyDict | services/llm_clients.py:12-13 | `(v or {}).get` raises exactly when `v` is truthy and not a dict; otherwise it reads the dict, or `{}` for a falsy value |
| PyText.TrimStartSuffix | services/builder.py:40 | `lstrip` removes a whitespace prefix and leaves a suffix that does not start with whitespace |
| PyText.TrimEndPrefix | services/builder.py:40 | `rstrip` removes a whitespace suffix and leaves a prefix that does not end with whitespace |
| PyText.StripSlice | services/builder.py:45 | `strip()` is a slice of the input with only whitespace cut off either side, and has no whitespace at either edge |
| PyText.StripEmptyIffBlank | services/builder.py:40 | `s.strip()` is falsy exactly when every character of `s` is whitespace |
| PyText.StripUntrimmed | services/builder.py:45 | a string with no whitespace at either edge is its own strip |
| PyText.StripIdempotent | routers/summary.py:61 | stripping twice is stripping once |
| PyText.ConcatEmptyIff | services/llm_clients.py:25 | `"".join(parts)` is empty exactly when every part is empty |
| ChatModels.ToDict | models/chat_models.py:18-27 | `to_dict`; its keys are stated by `ToDictKeys` and its losslessness by `ToDictRoundTrip` |
| ChatModels.MessagesToJson | models/chat_models.py:21 | one role/content object per message, same length, same order |
| ChatModels.MessagesRoundTrip | models/chat_models.py:21 | the role/content projection reads back as the very messages |
| ChatModels.ToDictKeys | models/chat_models.py:18-27 | `model` and `messages` are always present; `temperature` and `max_completion_tokens` are present exactly when set; there are no other keys |
| ChatModels.ToDictRoundTrip | models/chat_models.py:18-27 | `to_dict` loses nothing: the request reads back from it |
| ChatModels.ChatRequestBuilder.constructor | models/chat_models.py:34-38 | a fresh builder has no model, no messages and no sampling fields |
| ChatModels.ChatRequestBuilder.SetModel | models/chat_models.py:40-42 | sets the model and nothing else |
| ChatModels.ChatRequestBuilder.AddMessage | models/chat_models.py:44-46 | appends one message at the end and changes nothing else |
| ChatModels.ChatRequestBuilder.SetTemperature | models/chat_models.py:48-50 | sets the temperature and nothing else |
| ChatModels.ChatRequestBuilder.SetMaxCompletionTokens | models/chat_models.py:52-54 | sets the max tokens and nothing else |
| ChatModels.ChatRequestBuilder.Build | models/chat_models.py:56-62 | the request holds exactly the builder's current fields |
| LlmClients.TextPartsAppend | services/llm_clients.py:19-23 | collecting text parts distributes over concatenation |
| LlmClients.TextPartsEmptyIff | services/llm_clients.py:19-24 | nothing is collected exactly when no part is a dict with `type` "text" and a string `text` |
| LlmClients.CollectTextParts | services/llm_clients.py:18-23 | the loop collects the `text` of every text part, in order |
| LlmClients.ChoiceText | services/llm_clients.py:10-28 | `_extract_text_from_choices` as a function; its cases are stated by `ChoiceTextFailsIff`, `ChoiceTextNeedsNonEmptyList`, `ChoiceTextStringContent`, `ChoiceTextParts`, `ChoiceTextFallback` and `ChoiceTextEmptyOnlyFromEmptyParts` |
| LlmClients.ChoiceTextNeedsNonEmptyList | services/llm_clients.py:11-28 | anything but a non-empty list of choices gives None |
| LlmClients.ExtractTextFromChoices | services/llm_clients.py:10-28 | the step-by-step extraction equals the specification `ChoiceText` |
| LlmClients.ChoiceTextFailsIff | services/llm_clients.py:11-13 | extraction raises exactly when the first choice, or its `message`, is truthy and not a dict |
| LlmClients.ChoiceTextStringContent | services/llm_clients.py:15-16 | a non-empty string `message.content` is the text |
| LlmClients.ChoiceTextParts | services/llm_clients.py:17-25 | a content list with a text part gives the in-order join of its text parts |
| LlmClients.ChoiceTextFallback | services/llm_clients.py:26-27 | without usable content, a non-empty string `choices[0].text` is the text |
| LlmClients.ChoiceTextEmptyOnlyFromEmptyParts | services/llm_clients.py:24-25 | `""` comes only from a content list whose collected parts are all empty |
| LlmClients.ExtractReply | services/llm_clients.py:30-44 | `extract_reply`; its priority order is stated by the `Reply*` lemmas below |
| LlmClients.ReplyPrefersChoices | services/llm_clients.py:31-34 | text under the top-level `choices` wins |
| LlmClients.ReplyPrefersOutputText | services/llm_clients.py:35-39 | otherwise a non-empty `output.text` wins |
| LlmClients.ReplyFromOutputChoices | services/llm_clients.py:40-43 | otherwise `output.choices` is read with the same rule |
| LlmClients.ReplyFallsBackToRendering | services/llm_clients.py:31-44 | a body from which no shape yields text is rendered whole: `choices` gives no text, `output.text` is not a non-empty string, and `output.choices` gives no text |
| LlmClients.ReplyIsTextOrRendering | services/llm_clients.py:30-44 | the reply is non-empty text or the rendering of the body; the only failure is the malformed-choice `.get` |
| LlmClients.ReplyExamples | services/llm_clients.py:30-44 | an OpenAI envelope, a DashScope envelope and an unknown shape give "hello", "world" and the rendering |
| LlmClients.EffectiveModel | services/llm_clients.py:60 | `req.model or DEFAULT_MODEL` is truthy; it is the model exactly when the model is truthy, else the default |
| LlmClients.Route | services/llm_clients.py:81-82 | the routing decision of `smart_call`; stated by `RouteRule` |
| LlmClients.LowerStartsWithGpt | services/llm_clients.py:81-82 | lower-casing then testing `gpt-` is a case-insensitive prefix test |
| LlmClients.RouteRule | services/llm_clients.py:81-84 | OpenAI exactly for a string model starting with `gpt-` in any case; DashScope for any other string or a falsy model; a truthy non-string raises |
| LlmClients.RouteExamples | services/llm_clients.py:75-84 | "GPT-4" and "gpt-4o" go to OpenAI; "qwen-plus", no model and "" go to DashScope |
| LlmClients.QwenPayload | services/llm_clients.py:58-67 | the DashScope body; its shape is stated by `QwenPayloadShape` |
| LlmClients.BuildQwenPayload | services/llm_clients.py:58-67 | the step-by-step DashScope body equals the specification `QwenPayload` |
| LlmClients.QwenPayloadShape | services/llm_clients.py:58-67 | the body has three keys; `result_format` is "text"; each sampling field is present exactly when set; its messages read back as the request's |
| LlmClients.CallGpt | services/llm_clients.py:46-54 | posts `to_dict()` to OpenAI; its error cases are stated by `NonOkStatusIsError` |
| LlmClients.CallQwen | services/llm_clients.py:56-73 | posts the DashScope body; its error cases are stated by `NonOkStatusIsError` |
| LlmClients.SmartCall | services/llm_clients.py:75-84 | routes, then calls that backend; stated by `RouteRule` and `SmartCallUsesRoutedBody` |
| LlmClients.NonOkStatusIsError | services/llm_clients.py:52-53 | a status other than 200 raises with that status and the body text (plus " err from gpt" for OpenAI), and only then |
| LlmClients.SmartCallUsesRoutedBody | services/llm_clients.py:75-84 | the outcome depends only on the routed backend's answer to its own body |
| RequestBuilder.ChosenModel | services/builder.py:16-19 | the model is truthy: exactly `payload["model"]` when the payload is a dict and that value is truthy, else the default |
| RequestBuilder.ChosenTemperature | services/builder.py:22-24 | the temperature choice; stated by `TemperatureRule` |
| RequestBuilder.TemperatureRule | services/builder.py:22-24 | the temperature is set exactly when the dict's `temperature` is an int, a float or a bool, and is then `float(v)` (1.0 for True, 0.0 for False) |
| RequestBuilder.MaxTokensAsWritten | services/builder.py:25-27 | a value passes exactly when the payload is a dict and the chosen key's value is a Python int, which includes bool; the value passed is that value |
| RequestBuilder.ChosenMaxTokens | services/builder.py:25-27 | the corrected max-tokens choice; stated by `ChosenMaxTokensIsIntOnly` and `MaxTokensKeyPriority` |
| RequestBuilder.MaxTokensAsWrittenAcceptsBool | services/builder.py:25-27 | `{"max_tokens": true}` passes the check as written; the corrected choice rejects it |
| RequestBuilder.ChosenMaxTokensIsIntOnly | services/builder.py:25-27 | the corrected choice agrees with the check on every integer and differs only on bool |
| RequestBuilder.MaxTokensKeyPriority | services/builder.py:25 | `max_completion_tokens` shadows `max_tokens` whenever the key is present, even as None |
| RequestBuilder.HistoryEntry | services/builder.py:38-41 | an entry raises exactly when truthy and not a dict; it is kept, unchanged, exactly when it is a dict with a string role and a non-blank string content |
| RequestBuilder.History | services/builder.py:37-41 | the loop's appended messages or its exception; stated by the `History*` lemmas below |
| RequestBuilder.HistoryErrExtends | services/builder.py:37-41 | once an entry raises, the whole loop raises that error |
| RequestBuilder.HistoryAppend | services/builder.py:37-41 | the loop over a concatenation is the loop over each part |
| RequestBuilder.HistoryFailsIff | services/builder.py:37-41 | the loop raises exactly when some entry is truthy and not a dict |
| RequestBuilder.HistoryBounded | services/builder.py:37-41 | at most one message per entry, each with non-blank content |
| RequestBuilder.FallbackMessages | services/builder.py:42-50 | the `message`/`prompt`/raw-text chain; stated by `MessageKeyWins`, `PromptUsed`, `RawTextUsed`, `TruthyMessageBlocksPrompt` and `FallbackAtMostTwo` |
| RequestBuilder.UserTurnShape | services/builder.py:44-47 | at most one user message, present exactly for non-blank text, stripped |
| RequestBuilder.AddHistory | services/builder.py:37-41 | the loop appends exactly the kept entries to the builder, or reports the error raised |
| RequestBuilder.BuildRequest | services/builder.py:6-52 | `build_req_from_payload` as a function; stated by `BuildFailsIff`, `RequestStartsWithSystem`, `MessageArrayKeepsOrder`, `PlainTextRequest` and the fallback lemmas |
| RequestBuilder.BuildReqFromPayload | services/builder.py:6-52 | driving the builder yields exactly the specification `BuildRequest` |
| RequestBuilder.RequestStartsWithSystem | services/builder.py:30-31 | every request starts with the fixed system message and has a truthy model |
| RequestBuilder.BuildFailsIff | services/builder.py:34-41 | building raises exactly when `messages` is a non-empty list with a truthy non-dict entry |
| RequestBuilder.MessageArrayShadowsFallbacks | services/builder.py:34-47 | with a non-empty `messages` list, `message`, `prompt` and the raw text make no difference |
| RequestBuilder.MessageArrayKeepsOrder | services/builder.py:34-41 | kept entries follow the system message in order, unchanged, at most one per entry |
| RequestBuilder.FallbackAtMostTwo | services/builder.py:42-50 | without a message list there are one or two messages; a second is a stripped, non-blank user turn |
| RequestBuilder.PlainTextRequest | services/builder.py:16-50 | a non-dict payload gives the default model, no sampling fields and the stripped raw text when not blank |
| RequestBuilder.MessageKeyWins | services/builder.py:43-45 | a non-blank string `message` becomes the stripped user turn |
| RequestBuilder.TruthyMessageBlocksPrompt | services/builder.py:43-47 | a truthy `message` that is not usable text hides `prompt`; the raw text is used |
| RequestBuilder.PromptUsed | services/builder.py:43-45 | with a falsy `message`, a non-blank string `prompt` becomes the stripped user turn |
| RequestBuilder.RawTextUsed | services/builder.py:43-47 | when the first truthy of `message` and `prompt` is not a non-blank string, the raw text gives the user turn |
| RequestBuilder.GreetingExample | services/builder.py:6-52 | `{"model": "qwen-plus", "message": "你好"}` gives the system message plus "你好" and routes to DashScope |
| Summary.SummaryModel | routers/summary.py:54 | `body.model or DEFAULT_MODEL`; stated by `SummaryRequestFields` |
| Summary.StyleNoteFallback | routers/summary.py:44 | a known style gets its own note, an unknown one the brief note |
| Summary.UserPromptDefault | routers/summary.py:45 | a missing or empty prompt gives the default prompt, any other is used as it is |
| Summary.RecordMessages | routers/summary.py:50-51 | one message per record, in order, role and content unchanged |
| Summary.SummaryRequest | routers/summary.py:39-58 | the request `summarize` builds, or its 400; stated by `SummaryMessagesShape` and `SummaryRequestFields` |
| Summary.BuildSummaryRequest | routers/summary.py:39-58 | the step-by-step assembly equals the specification `SummaryRequest` |
| Summary.EmptyRecordsRejected | routers/summary.py:40-41 | no records gives a 400 with "records 不能为空" whatever the backend would answer |
| Summary.SummaryMessagesShape | routers/summary.py:44-51 | 2 + len(records) messages: the system message with the style note, the user prompt, then the records in order |
| Summary.SummaryRequestFields | routers/summary.py:53-58 | the request has the model or the default and the body's temperature and max tokens, and routing never fails |
| Summary.Summarize | routers/summary.py:39-61 | the endpoint as a whole; stated by `EmptyRecordsRejected` and `SummaryIsStripped` |
| Summary.SummaryIsStripped | routers/summary.py:60-61 | the summary is the backend reply stripped, with no whitespace at either edge |

## Left out

- HTTP itself is left out: headers, API keys, URLs, timeouts, `async`, and transport errors raised by `httpx`. The exchange is the parameter `post`, and a body that is not JSON is the error `BodyNotJson`.
- `str(data)` is the parameter `show`. Python's dict-rendering format is not modelled, and neither is dict key order, which only that rendering could observe.
- `routers/chat.py` (the WebSocket chat handler, which calls `call_qwen` directly), `models/record_model.py`, `core/config.py` and `main.py` are not part of this model. Only `DEFAULT_MODEL` from the configuration is used.
- Floats are reals: NaN, infinities and rounding are not modelled. An integer temperature too large for a float makes `float()` raise OverflowError; the model turns it into a real instead.
- RequestBuilder.BuildReqFromPayload: uses the corrected max-tokens choice from "## Findings", so for `{"max_tokens": true}` the model's request has no max tokens, while the code stores `True`. `RequestBuilder.MaxTokensAsWritten` models the code's check as written.
- pydantic validation of `SummaryReq` and `Record` is not modelled. That includes the Literal role and style checks and the defaults 512, 0.3 and "brief"; the endpoint's own logic is modelled on the values as received.
- PyText.Lower: only ASCII letters are lower-cased. Python's full Unicode case mapping is not modelled. No non-ASCII character lower-cases to `g`, `p`, `t` or `-`, so the `gpt-` routing test is unaffected.
- ChatModels.ChatRequestBuilder.Build: the Python `build()` hands over its own message list without copying, so later `addMessage` calls would show through. The model's sequences are values, so this aliasing is not captured.
- ChatModels.ChatRequestBuilder.SetModel: the Python setters return the builder for chaining. The Dafny methods return nothing.
- RequestBuilder.ChosenTemperature: `isinstance(True, (int, float))` holds, so `{"temperature": true}` sets 1.0. This is modelled as written, because a bool temperature is an odd input but not an evident error.
- The `type("M", (), m)` adapter in `summarize` is modelled as a `Message` with the same role and content.

## Findings

| source | as written | input that shows it | evidently intended | confidence | as-written member | corrected member |
|---|---|---|---|---|---|---|
| services/builder.py:25-27 | `isinstance(mt, int)` also accepts `bool`, so `True` becomes `max_completion_tokens` | `{"max_tokens": true}` | only integers set the max tokens | medium, not executed | RequestBuilder.MaxTokensAsWritten (RequestBuilder.MaxTokensAsWrittenAcceptsBool) | RequestBuilder.ChosenMaxTokens (RequestBuilder.ChosenMaxTokensIsIntOnly) |
