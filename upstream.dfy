/** What both clients send to and read from the hosted chat service: the
    credential exchange, the conversation request (body and headers) and the
    terminal frame of a reply. The service itself is an oracle passed in by
    the caller: a reply is a `Result<HttpResponse>`, where `Err` is a failed
    transport, and `json.loads` is a function `decode` left uninterpreted. */
module Upstream {
  import opened Py

  datatype HttpResponse = HttpResponse(status: int, text: string)

  /** `raise_for_status` raises for client and server errors only. */
  predicate IsHttpError(status: int) {
    400 <= status < 600
  }

  /** The outcome of one credential exchange (`get_access_token` in
      term-bot.py, `_get_access_token` in both classes): the reply's
      `accessToken` field, or the error raised on the way to it. */
  function ExchangeOutcome(reply: Result<HttpResponse>, decode: string -> Result<Json>): (r: Result<Json>)
    ensures r.Ok? <==>
      && reply.Ok? && !IsHttpError(reply.value.status)
      && decode(reply.value.text).Ok?
      && Subscript(decode(reply.value.text).value, "accessToken").Ok?
    ensures r.Ok? ==> r == Subscript(decode(reply.value.text).value, "accessToken")
    ensures reply.Ok? && IsHttpError(reply.value.status) ==> r == Err(HttpError(reply.value.status))
    ensures reply.Err? ==> r == Err(reply.error)
  {
    match reply
    case Err(e) => Err(e)
    case Ok(resp) =>
      if IsHttpError(resp.status) then Err(HttpError(resp.status))
      else
        var body :- decode(resp.text);
        Subscript(body, "accessToken")
  }

  const ConversationUrl := "https://chat.openai.com/backend-api/conversation"
  const ModelName := "text-davinci-002-render"

  /** The POST handed to the service: URL, headers and JSON body. */
  datatype PostRequest = PostRequest(url: string, headers: map<string, string>, body: Json)

  /** What one turn asks of the service: the prompt, a fresh message id, and
      the conversation's thread id (JNull to start a thread) and pointer. */
  datatype PendingRequest = PendingRequest(prompt: string, messageId: string, conversationId: Json, parent: Json)

  /** The request body both clients build: action "next", exactly one user
      message whose parts are [prompt], the thread id and the pointer. */
  function RequestBody(p: PendingRequest): (body: Json)
    ensures Subscript(body, "action") == Ok(JStr("next"))
    ensures Subscript(body, "conversation_id") == Ok(p.conversationId)
    ensures Subscript(body, "parent_message_id") == Ok(p.parent)
    ensures Subscript(body, "model") == Ok(JStr(ModelName))
  {
    JObj(map[
      "action" := JStr("next"),
      "messages" := JArr([JObj(map[
        "id" := JStr(p.messageId),
        "role" := JStr("user"),
        "content" := JObj(map["content_type" := JStr("text"), "parts" := JArr([JStr(p.prompt)])])
      ])]),
      "conversation_id" := p.conversationId,
      "parent_message_id" := p.parent,
      "model" := JStr(ModelName)
    ])
  }

  /** The service's reading of a request body: a "next" action carrying
      exactly one user-role text message with a single part. */
  function ReadRequestBody(body: Json): (r: Option<PendingRequest>)
    ensures r.Some? ==> Subscript(body, "action") == Ok(JStr("next"))
    ensures r.Some? ==> Subscript(body, "conversation_id") == Ok(r.value.conversationId)
    ensures r.Some? ==> Subscript(body, "parent_message_id") == Ok(r.value.parent)
  {
    if !body.JObj? then None
    else
      var f := body.fields;
      if !("action" in f && "messages" in f && "conversation_id" in f && "parent_message_id" in f) then None
      else if f["action"] != JStr("next") || !f["messages"].JArr? || |f["messages"].items| != 1 then None
      else
        var m := f["messages"].items[0];
        if !(m.JObj? && "id" in m.fields && "role" in m.fields && "content" in m.fields) then None
        else if !m.fields["id"].JStr? || m.fields["role"] != JStr("user") then None
        else
          var c := m.fields["content"];
          if !(c.JObj? && "parts" in c.fields && "content_type" in c.fields) then None
          else if c.fields["content_type"] != JStr("text") then None
          else if !(c.fields["parts"].JArr? && |c.fields["parts"].items| == 1 && c.fields["parts"].items[0].JStr?) then None
          else Some(PendingRequest(c.fields["parts"].items[0].s, m.fields["id"].s, f["conversation_id"], f["parent_message_id"]))
  }

  /** The body carries everything the pending request holds, unchanged: the
      prompt as the only part of the only message, the thread id (even when it
      is JNull) and the pointer. */
  lemma RequestBodyRoundTrip(p: PendingRequest)
    ensures ReadRequestBody(RequestBody(p)) == Some(p)
  {
  }

  const BearerPrefix := "Bearer "

  /** The headers of the POST: `"Bearer " + token` raises TypeError unless the
      token is a string. */
  function Headers(token: Json): (r: Result<map<string, string>>)
    ensures r.Ok? <==> token.JStr?
    ensures r.Err? ==> r.error == TypeError
    ensures r.Ok? ==> "Authorization" in r.value && "Accept" in r.value && "Content-Type" in r.value
  {
    match token
    case JStr(t) =>
      Ok(map["Accept" := "application/json",
             "Authorization" := BearerPrefix + t,
             "Content-Type" := "application/json"])
    case _ => Err(TypeError)
  }

  /** The service's reading of an Authorization header. */
  function BearerToken(header: string): (t: Option<string>)
    ensures t.Some? ==> header == BearerPrefix + t.value
  {
    if |header| >= |BearerPrefix| && header[..|BearerPrefix|] == BearerPrefix then
      Some(header[|BearerPrefix|..])
    else None
  }

  /** The Authorization header carries exactly the current token. */
  lemma HeadersCarryToken(token: string)
    ensures Headers(JStr(token)).Ok?
    ensures BearerToken(Headers(JStr(token)).value["Authorization"]) == Some(token)
  {
    var h := BearerPrefix + token;
    assert h[..|BearerPrefix|] == BearerPrefix;
    assert h[|BearerPrefix|..] == token;
  }

  /** The content of a terminal frame's message: a single text part. */
  function TerminalContent(text: Json): Json {
    JObj(map["content_type" := JStr("text"), "parts" := JArr([text])])
  }

  /** The assistant's message in a terminal frame, with every field the
      service sends. */
  function TerminalMessage(messageId: Json, text: Json): Json {
    JObj(map[
      "id" := messageId,
      "role" := JStr("assistant"),
      "user" := JNull,
      "create_time" := JNull,
      "update_time" := JNull,
      "content" := TerminalContent(text),
      "end_turn" := JNull,
      "weight" := JInt(1),
      "metadata" := JObj(map[]),
      "recipient" := JStr("all")
    ])
  }

  /** A terminal frame as the service sends it: the assistant's message with
      its id and a single text part, the thread id and no error. */
  function TerminalFrame(conversationId: Json, messageId: Json, text: Json): Json {
    JObj(map[
      "message" := TerminalMessage(messageId, text),
      "conversation_id" := conversationId,
      "error" := JNull
    ])
  }
}
