/** open_ai_chat.py: the client that owns its access token in memory only
    (`OpenAiChatClient`) and the typed reply (`ConversationResponse`). Unlike
    term-bot.py it keeps no token cache, and a 401 raises instead of parsing. */
module OpenAiChat {
  import opened Py
  import opened Lines
  import opened Upstream
  import opened Conversations

  datatype Content = Content(contentType: Json, parts: Json)

  /** The fields of `Message` the client uses; the others are only required
      to be present. */
  datatype Message = Message(id: Json, role: Json, content: Content)

  datatype ConversationResponse = ConversationResponse(message: Message, conversationId: Json, error: Json)

  /** `ConversationResponse.text`: the first of the message's parts. */
  function Text(r: ConversationResponse): (t: Result<Json>)
    ensures var parts := r.message.content.parts;
      parts.JArr? ==> (t.Ok? <==> parts.items != []) && (t.Ok? ==> t.value == parts.items[0])
    ensures t.Ok? ==> r.message.content.parts.JArr? || r.message.content.parts.JStr?
  {
    Item(r.message.content.parts, 0)
  }

  /** `ConversationResponse(...)` from the decoded frame, every field looked
      up in the order Python evaluates them; a missing one raises KeyError. */
  function ResponseOf(data: Json): (r: Result<ConversationResponse>)
    ensures r.Ok? ==> Subscript(data, "conversation_id") == Ok(r.value.conversationId)
    ensures r.Ok? ==> Subscript(data, "message").Ok?
    ensures r.Ok? ==> Subscript(Subscript(data, "message").value, "id") == Ok(r.value.message.id)
    ensures r.Ok? ==>
      var content := Subscript(Subscript(data, "message").value, "content");
      && content.Ok? && Subscript(content.value, "parts") == Ok(r.value.message.content.parts)
  {
    var msg :- Subscript(data, "message");
    var id :- Subscript(msg, "id");
    var role :- Subscript(msg, "role");
    var user :- Subscript(msg, "user");
    var createTime :- Subscript(msg, "create_time");
    var updateTime :- Subscript(msg, "update_time");
    var content :- Subscript(msg, "content");
    var contentType :- Subscript(content, "content_type");
    var parts :- Subscript(content, "parts");
    var endTurn :- Subscript(msg, "end_turn");
    var weight :- Subscript(msg, "weight");
    var metadata :- Subscript(msg, "metadata");
    var recipient :- Subscript(msg, "recipient");
    var conversationId :- Subscript(data, "conversation_id");
    var error :- Subscript(data, "error");
    Ok(ConversationResponse(Message(id, role, Content(contentType, parts)), conversationId, error))
  }

  /** Reading a reply body: the fixed-offset payload, `json.loads`, then the
      fields. */
  function ParseResponse(text: string, decode: string -> Result<Json>): (r: Result<ConversationResponse>)
    ensures |SplitLines(text)| < 4 ==> r == Err(IndexError)
    ensures r.Ok? ==>
      && Payload(text).Ok? && decode(Payload(text).value).Ok?
      && Subscript(decode(Payload(text).value).value, "conversation_id") == Ok(r.value.conversationId)
  {
    var payload :- Payload(text);
    var data :- decode(payload);
    ResponseOf(data)
  }

  /** A terminal frame decodes: every field Python looks up is present. */
  lemma ResponseOfTerminalFrameFields(conversationId: Json, messageId: Json, text: Json)
    ensures ResponseOf(TerminalFrame(conversationId, messageId, text))
      == Ok(ConversationResponse(Message(messageId, JStr("assistant"), Content(JStr("text"), JArr([text]))),
                                 conversationId, JNull))
  {
    var frame := TerminalFrame(conversationId, messageId, text);
    var msg := TerminalMessage(messageId, text);
    assert Subscript(frame, "message") == Ok(msg);
    assert Subscript(frame, "conversation_id") == Ok(conversationId);
    assert Subscript(frame, "error") == Ok(JNull);
    assert Subscript(msg, "id") == Ok(messageId);
    assert Subscript(msg, "role") == Ok(JStr("assistant"));
    assert Subscript(msg, "user") == Ok(JNull);
    assert Subscript(msg, "create_time") == Ok(JNull);
    assert Subscript(msg, "update_time") == Ok(JNull);
    assert Subscript(msg, "content") == Ok(TerminalContent(text));
    assert Subscript(msg, "end_turn") == Ok(JNull);
    assert Subscript(msg, "weight") == Ok(JInt(1));
    assert Subscript(msg, "metadata") == Ok(JObj(map[]));
    assert Subscript(msg, "recipient") == Ok(JStr("all"));
    assert Subscript(TerminalContent(text), "content_type") == Ok(JStr("text"));
    assert Subscript(TerminalContent(text), "parts") == Ok(JArr([text]));
  }

  /** A terminal frame yields its thread id, its message id and, as `text`,
      its only part. */
  lemma ResponseOfTerminalFrame(conversationId: Json, messageId: Json, text: Json)
    ensures ResponseOf(TerminalFrame(conversationId, messageId, text)).Ok?
    ensures var r := ResponseOf(TerminalFrame(conversationId, messageId, text)).value;
      r.conversationId == conversationId && r.message.id == messageId && Text(r) == Ok(text)
  {
    ResponseOfTerminalFrameFields(conversationId, messageId, text);
  }

  lemma ParseResponseOfFrame(body: string, payload: string, decode: string -> Result<Json>,
                             conversationId: Json, messageId: Json, text: Json)
    requires Payload(body) == Ok(payload)
    requires decode(payload) == Ok(TerminalFrame(conversationId, messageId, text))
    ensures ParseResponse(body, decode) == ResponseOf(TerminalFrame(conversationId, messageId, text))
  {
  }

  /** A well-formed stream whose last data frame is a terminal frame yields
      that frame's thread id, message id and text. */
  lemma ParseResponseOfStream(payloads: seq<string>, decode: string -> Result<Json>,
                              conversationId: Json, messageId: Json, text: Json)
    requires payloads != [] && forall k :: 0 <= k < |payloads| ==> NoBreaks(payloads[k])
    requires decode(payloads[|payloads| - 1]) == Ok(TerminalFrame(conversationId, messageId, text))
    ensures var r := ParseResponse(Terminated(StreamLines(payloads)), decode);
      r.Ok? && r.value.conversationId == conversationId && r.value.message.id == messageId
      && Text(r.value) == Ok(text)
  {
    PayloadOfStream(payloads);
    ParseResponseOfFrame(Terminated(StreamLines(payloads)), payloads[|payloads| - 1], decode, conversationId, messageId, text);
    ResponseOfTerminalFrame(conversationId, messageId, text);
  }

  /** The `access_token` property over the in-memory token alone: a truthy
      token is returned without an exchange; otherwise exactly one exchange
      is made and, when it succeeds, its token is kept. */
  function ReadToken(token: Json, exchange: Result<Json>): (res: (Json, Result<Json>))
    ensures Truthy(token) ==> res == (token, Ok(token))
    ensures !Truthy(token) ==> res.1 == exchange
    ensures res.1.Ok? ==> res.0 == res.1.value
    ensures res.1.Err? ==> res.0 == token
  {
    if Truthy(token) then (token, Ok(token))
    else match exchange
      case Ok(t) => (t, Ok(t))
      case Err(e) => (token, Err(e))
  }

  /** The POST `conversation` sends, once the token has been read. */
  function SentRequest(token: Json, p: PendingRequest, exchange: Result<Json>): (r: Result<PostRequest>)
    ensures r.Ok? ==> ReadToken(token, exchange).1.Ok? && ReadToken(token, exchange).1.value.JStr?
  {
    var t :- ReadToken(token, exchange).1;
    var headers :- Headers(t);
    Ok(PostRequest(ConversationUrl, headers, RequestBody(p)))
  }

  /** The service's reply, if the request got as far as being sent. */
  function Posted(token: Json, p: PendingRequest, exchange: Result<Json>, post: PostRequest -> Result<HttpResponse>): Result<HttpResponse> {
    var request :- SentRequest(token, p, exchange);
    post(request)
  }

  /** `conversation`: read the token, send the request; on a 401 forget the
      token and raise ValueError without looking at the body, otherwise parse
      the body. Returns the new in-memory token and the reply. */
  function Converse(token: Json, p: PendingRequest, exchange: Result<Json>,
                    post: PostRequest -> Result<HttpResponse>, decode: string -> Result<Json>): (res: (Json, Result<ConversationResponse>))
    ensures Posted(token, p, exchange, post).Err? ==> res == (ReadToken(token, exchange).0, Err(Posted(token, p, exchange, post).error))
    ensures Posted(token, p, exchange, post).Ok? && Posted(token, p, exchange, post).value.status != 401 ==>
      res == (ReadToken(token, exchange).0, ParseResponse(Posted(token, p, exchange, post).value.text, decode))
  {
    var t1 := ReadToken(token, exchange).0;
    match Posted(token, p, exchange, post)
    case Err(e) => (t1, Err(e))
    case Ok(response) =>
      if response.status == 401 then (JNull, Err(ValueError("Unauthorized")))
      else (t1, ParseResponse(response.text, decode))
  }

  /** A 401 clears the token and raises ValueError whatever the body says,
      and the next token read performs a fresh exchange. There is no retry. */
  lemma UnauthorizedRaises(token: Json, p: PendingRequest, exchange: Result<Json>,
                           post: PostRequest -> Result<HttpResponse>, decode: string -> Result<Json>,
                           nextExchange: Result<Json>)
    requires Posted(token, p, exchange, post).Ok? && Posted(token, p, exchange, post).value.status == 401
    ensures Converse(token, p, exchange, post, decode) == (JNull, Err(ValueError("Unauthorized")))
    ensures ReadToken(Converse(token, p, exchange, post, decode).0, nextExchange).1 == nextExchange
  {
  }

  /** The request carries the conversation's thread id (JNull for a new
      one) and pointer, one user message whose parts are [prompt], and
      `"Bearer " + token` as its Authorization header. */
  lemma SentRequestCarries(token: Json, c: Conversation, prompt: string, messageId: string, exchange: Result<Json>)
    requires SentRequest(token, Pending(c, prompt, messageId), exchange).Ok?
    ensures var request := SentRequest(token, Pending(c, prompt, messageId), exchange).value;
      && ReadRequestBody(request.body) == Some(PendingRequest(prompt, messageId, c.id, c.parent))
      && "Authorization" in request.headers
      && request.headers["Authorization"] == BearerPrefix + ReadToken(token, exchange).1.value.s
  {
    RequestBodyRoundTrip(Pending(c, prompt, messageId));
  }

  class OpenAiChatClient {
    /** The long-lived credential presented to the authentication endpoint. */
    const sessionToken: string
    /** `_access_token`; JNull is None. */
    var accessToken: Json
    /** Credential exchanges performed so far. */
    ghost var exchanges: nat

    constructor (sessionToken: string)
      ensures this.sessionToken == sessionToken && accessToken == JNull && exchanges == 0
    {
      this.sessionToken := sessionToken;
      accessToken := JNull;
      exchanges := 0;
    }

    /** `_get_access_token`: one credential exchange. */
    method GetAccessToken(auth: string -> Result<HttpResponse>, decode: string -> Result<Json>) returns (r: Result<Json>)
      modifies this
      ensures r == ExchangeOutcome(auth(sessionToken), decode)
      ensures accessToken == old(accessToken) && exchanges == old(exchanges) + 1
    {
      exchanges := exchanges + 1;
      r := ExchangeOutcome(auth(sessionToken), decode);
    }

    /** `access_token`. */
    method AccessToken(auth: string -> Result<HttpResponse>, decode: string -> Result<Json>) returns (r: Result<Json>)
      modifies this
      ensures (accessToken, r) == ReadToken(old(accessToken), ExchangeOutcome(auth(sessionToken), decode))
      ensures exchanges == old(exchanges) + (if Truthy(old(accessToken)) then 0 else 1)
    {
      if !Truthy(accessToken) {
        var fetched := GetAccessToken(auth, decode);
        if fetched.Err? {
          return Err(fetched.error);
        }
        accessToken := fetched.value;
      }
      r := Ok(accessToken);
    }

    /** `conversation`; `messageId` is the uuid of the user's message. */
    method Conversation(c: Conversation, prompt: string, messageId: string,
                        auth: string -> Result<HttpResponse>, post: PostRequest -> Result<HttpResponse>,
                        decode: string -> Result<Json>) returns (r: Result<ConversationResponse>)
      modifies this
      ensures (accessToken, r) == Converse(old(accessToken), Pending(c, prompt, messageId),
                                           ExchangeOutcome(auth(sessionToken), decode), post, decode)
    {
      var body := RequestBody(Pending(c, prompt, messageId));
      var token := AccessToken(auth, decode);
      if token.Err? {
        return Err(token.error);
      }
      var headers := Headers(token.value);
      if headers.Err? {
        return Err(headers.error);
      }
      var response := post(PostRequest(ConversationUrl, headers.value, body));
      if response.Err? {
        return Err(response.error);
      }
      if response.value.status == 401 {
        accessToken := JNull;
        return Err(ValueError("Unauthorized"));
      }
      r := ParseResponse(response.value.text, decode);
    }
  }
}
