/** The request model of the gateway: `Message`, `ChatRequest`, its
    `to_dict` serialisation, and the mutable `ChatRequestBuilder`. */
module ChatModels {
  import opened PyValues

  /** One role-tagged chat message. */
  datatype Message = Message(role: string, content: string)

  /** The backend-agnostic request. `model` is whatever value the caller put
      there: the builder stores `payload["model"]` without checking its type. */
  datatype ChatRequest = ChatRequest(
    model: Json,
    messages: seq<Message>,
    temperature: Option<real>,
    maxCompletionTokens: Option<int>)

  /** `{"role": m.role, "content": m.content}` */
  function MessageToJson(m: Message): Json {
    JObj(map["role" := JStr(m.role), "content" := JStr(m.content)])
  }

  /** The list comprehension of `to_dict`: one role/content object per
      message, in the same order. */
  function MessagesToJson(ms: seq<Message>): (js: seq<Json>)
    ensures |js| == |ms|
    ensures forall i :: 0 <= i < |ms| ==> js[i] == MessageToJson(ms[i])
  {
    if ms == [] then [] else [MessageToJson(ms[0])] + MessagesToJson(ms[1..])
  }

  /** Reads a role/content object back; anything else is not a message. */
  function MessageFromJson(j: Json): Option<Message> {
    if j.JObj? && "role" in j.fields && "content" in j.fields
       && j.fields["role"].JStr? && j.fields["content"].JStr?
    then Some(Message(j.fields["role"].s, j.fields["content"].s))
    else None
  }

  /** Reads a list of role/content objects back, failing on the first
      entry that is not one. */
  function MessagesFromJson(js: seq<Json>): Option<seq<Message>> {
    if js == [] then Some([])
    else match (MessageFromJson(js[0]), MessagesFromJson(js[1..]))
      case (Some(m), Some(rest)) => Some([m] + rest)
      case _ => None
  }

  /** The role/content projection loses nothing: reading it back gives the
      messages, in order. */
  lemma {:induction false} MessagesRoundTrip(ms: seq<Message>)
    ensures MessagesFromJson(MessagesToJson(ms)) == Some(ms)
  {
    if ms != [] {
      MessagesRoundTrip(ms[1..]);
      assert MessagesToJson(ms)[1..] == MessagesToJson(ms[1..]);
      assert [ms[0]] + ms[1..] == ms;
    }
  }

  /** `ChatRequest.to_dict()`: `model` and `messages` always, each optional
      field only when it is set. */
  function ToDict(req: ChatRequest): Json {
    var base := map["model" := req.model, "messages" := JArr(MessagesToJson(req.messages))];
    var withTemperature :=
      if req.temperature.Some? then base["temperature" := JFloat(req.temperature.value)] else base;
    var withMax :=
      if req.maxCompletionTokens.Some?
      then withTemperature["max_completion_tokens" := JInt(req.maxCompletionTokens.value)]
      else withTemperature;
    JObj(withMax)
  }

  /** Reads a `to_dict` object back into a request. */
  function FromDict(d: Json): Option<ChatRequest> {
    if !(d.JObj? && "model" in d.fields && "messages" in d.fields && d.fields["messages"].JArr?) then None
    else
      var f := d.fields;
      match MessagesFromJson(f["messages"].items)
      case None => None
      case Some(ms) =>
        if "temperature" in f && !f["temperature"].JFloat? then None
        else if "max_completion_tokens" in f && !f["max_completion_tokens"].JInt? then None
        else
          var temperature := if "temperature" in f then Some(f["temperature"].r) else None;
          var maxTokens := if "max_completion_tokens" in f then Some(f["max_completion_tokens"].i) else None;
          Some(ChatRequest(f["model"], ms, temperature, maxTokens))
  }

  /** The keys of `to_dict`: `model` and `messages` are always there and
      carry the model and the messages' projection; `temperature` and
      `max_completion_tokens` are there exactly when the field is not None;
      there is no other key. */
  lemma ToDictKeys(req: ChatRequest)
    ensures ToDict(req).JObj?
    ensures var f := ToDict(req).fields;
      && "model" in f && f["model"] == req.model
      && "messages" in f && f["messages"] == JArr(MessagesToJson(req.messages))
      && ("temperature" in f <==> req.temperature.Some?)
      && ("max_completion_tokens" in f <==> req.maxCompletionTokens.Some?)
      && f.Keys <= {"model", "messages", "temperature", "max_completion_tokens"}
  {
  }

  /** `to_dict` loses nothing: the request can be read back from it. */
  lemma ToDictRoundTrip(req: ChatRequest)
    ensures FromDict(ToDict(req)) == Some(req)
  {
    MessagesRoundTrip(req.messages);
    ToDictKeys(req);
  }

  /** `ChatRequestBuilder`: every setter overwrites its own field only, and
      `addMessage` appends one message at the end. The Python setters also
      return the builder so that calls chain; here they return nothing. */
  class ChatRequestBuilder {
    var model: Json
    var messages: seq<Message>
    var temperature: Option<real>
    var maxCompletionTokens: Option<int>

    /** A fresh builder: no model, no messages, no temperature, no max tokens. */
    constructor ()
      ensures model == JNull && messages == []
      ensures temperature == None && maxCompletionTokens == None
    {
      model := JNull;
      messages := [];
      temperature := None;
      maxCompletionTokens := None;
    }

    /** `model(m)` */
    method SetModel(m: Json)
      modifies this`model
      ensures model == m
    {
      model := m;
    }

    /** `addMessage(role, content)` */
    method AddMessage(role: string, content: string)
      modifies this`messages
      ensures messages == old(messages) + [Message(role, content)]
    {
      messages := messages + [Message(role, content)];
    }

    /** `temperature(t)` */
    method SetTemperature(t: real)
      modifies this`temperature
      ensures temperature == Some(t)
    {
      temperature := Some(t);
    }

    /** `max_completion_tokens(n)` */
    method SetMaxCompletionTokens(n: int)
      modifies this`maxCompletionTokens
      ensures maxCompletionTokens == Some(n)
    {
      maxCompletionTokens := Some(n);
    }

    /** `build()`: a request holding the builder's current fields. */
    method Build() returns (req: ChatRequest)
      ensures req.model == model && req.messages == messages
      ensures req.temperature == temperature && req.maxCompletionTokens == maxCompletionTokens
    {
      req := ChatRequest(model, messages, temperature, maxCompletionTokens);
    }
  }
}
