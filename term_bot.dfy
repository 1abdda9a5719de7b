/** term-bot.py: the session that owns the access token (`OpenApiChatSession`),
    the client that sends one prompt (`OpenApiClient`) and one turn of the chat
    loop (`ChatBot.run`). Each class's state has an abstract value, and a pure
    function says what each operation does to it; the methods are proved to
    follow those functions, and the lemmas below them state the properties. */
module TermBot {
  import opened Py
  import opened Cache
  import opened Lines
  import opened Upstream
  import opened Conversations

  /** The session cache key that holds the access token. */
  const TokenKey := "access_token"

  // ---------------------------------------------------------------------
  // The access-token lifecycle

  /** The session's state: the in-memory token (JNull is None) and the
      contents of the session cache. */
  datatype SessionState = SessionState(token: Json, store: map<string, Json>)

  /** Reading the token goes as far as a credential exchange exactly when
      neither the in-memory token nor the cached one is truthy. */
  predicate NeedsExchange(s: SessionState) {
    !Truthy(s.token) && !Truthy(Lookup(s.store, TokenKey))
  }

  /** `_get_access_token`: a truthy cached token is returned as it is;
      otherwise the outcome of a credential exchange, which on success is
      also written to the cache. Returns the new cache contents and the
      outcome. */
  function FetchToken(store: map<string, Json>, exchange: Result<Json>): (res: (map<string, Json>, Result<Json>))
    ensures Truthy(Lookup(store, TokenKey)) ==> res == (store, Ok(Lookup(store, TokenKey)))
    ensures !Truthy(Lookup(store, TokenKey)) ==> res.1 == exchange
    ensures res.1.Ok? ==> Lookup(res.0, TokenKey) == res.1.value
    ensures res.1.Err? ==> res.0 == store
    ensures forall k :: k != TokenKey ==> Lookup(res.0, k) == Lookup(store, k)
  {
    var cached := Lookup(store, TokenKey);
    if Truthy(cached) then (store, Ok(cached))
    else match exchange
      case Ok(t) => (store[TokenKey := t], Ok(t))
      case Err(e) => (store, Err(e))
  }

  /** The `access_token` property: a truthy in-memory token is returned
      without fetching; otherwise the fetched token is kept in memory. When
      the fetch raises, the in-memory token is left as it was. */
  function ReadToken(s: SessionState, exchange: Result<Json>): (res: (SessionState, Result<Json>))
    ensures Truthy(s.token) ==> res == (s, Ok(s.token))
    ensures !Truthy(s.token) && Truthy(Lookup(s.store, TokenKey)) ==>
      res == (SessionState(Lookup(s.store, TokenKey), s.store), Ok(Lookup(s.store, TokenKey)))
    ensures res.1.Ok? ==> res.0.token == res.1.value
    ensures res.1.Err? ==> res.0 == s
    ensures NeedsExchange(s) ==> res.1 == exchange
    ensures NeedsExchange(s) && exchange.Ok? ==> Lookup(res.0.store, TokenKey) == exchange.value
    ensures !NeedsExchange(s) ==> res.1.Ok? && res.0.store == s.store
  {
    if Truthy(s.token) then (s, Ok(s.token))
    else
      var (store', r) := FetchToken(s.store, exchange);
      match r
      case Ok(t) => (SessionState(t, store'), Ok(t))
      case Err(e) => (SessionState(s.token, store'), Err(e))
  }

  /** `refresh_access_token`: forget the token in memory and in the cache, so
      that the next read performs an exchange. */
  function Refresh(s: SessionState): (s': SessionState)
    ensures s'.token == JNull && TokenKey !in s'.store
    ensures forall k :: k != TokenKey ==> Lookup(s'.store, k) == Lookup(s.store, k)
    ensures NeedsExchange(s')
  {
    SessionState(JNull, s.store - {TokenKey})
  }

  /** Without an exchange, what the oracle would have answered is irrelevant:
      no exchange is performed. */
  lemma ReadWithoutExchange(s: SessionState, e1: Result<Json>, e2: Result<Json>)
    requires !NeedsExchange(s)
    ensures ReadToken(s, e1) == ReadToken(s, e2)
  {
  }

  /** Once a truthy token has been read, reading again returns the same
      token, changes nothing and performs no exchange. */
  lemma RepeatedRead(s: SessionState, e1: Result<Json>, e2: Result<Json>)
    requires ReadToken(s, e1).1.Ok? && Truthy(ReadToken(s, e1).1.value)
    ensures ReadToken(ReadToken(s, e1).0, e2) == ReadToken(s, e1)
    ensures !NeedsExchange(ReadToken(s, e1).0)
  {
  }

  /** After a refresh, the next read is exactly the outcome of a fresh
      exchange (never the stale token), and a successful one is cached. */
  lemma RefreshThenRead(s: SessionState, e: Result<Json>)
    ensures ReadToken(Refresh(s), e).1 == e
    ensures e.Ok? ==> ReadToken(Refresh(s), e).0 == SessionState(e.value, Refresh(s).store[TokenKey := e.value])
  {
  }

  class OpenApiChatSession {
    /** The long-lived credential presented to the authentication endpoint. */
    const sessionToken: string
    /** The session cache file. */
    const cache: DbmCache
    /** `_access_token`; JNull is None. */
    var accessToken: Json
    /** Credential exchanges performed so far. */
    ghost var exchanges: nat
    /** Calls of `refresh_access_token` so far. */
    ghost var refreshes: nat

    function State(): SessionState
      reads this, cache
    {
      SessionState(accessToken, cache.store)
    }

    constructor (sessionToken: string, onDisk: map<string, Json>)
      ensures fresh(cache) && this.sessionToken == sessionToken
      ensures State() == SessionState(JNull, onDisk)
      ensures exchanges == 0 && refreshes == 0
    {
      this.sessionToken := sessionToken;
      cache := new DbmCache(onDisk);
      accessToken := JNull;
      exchanges, refreshes := 0, 0;
    }

    /** `access_token`; `auth` is the authentication endpoint's answer to a
        request carrying a given session credential. */
    method AccessToken(auth: string -> Result<HttpResponse>, decode: string -> Result<Json>) returns (r: Result<Json>)
      modifies this, cache
      ensures (State(), r) == ReadToken(old(State()), ExchangeOutcome(auth(sessionToken), decode))
      ensures exchanges == old(exchanges) + (if NeedsExchange(old(State())) then 1 else 0)
      ensures refreshes == old(refreshes)
    {
      if !Truthy(accessToken) {
        var fetched := GetAccessToken(auth, decode);
        if fetched.Err? {
          return Err(fetched.error);
        }
        accessToken := fetched.value;
      }
      r := Ok(accessToken);
    }

    /** `refresh_access_token`: no network call. */
    method RefreshAccessToken()
      modifies this, cache
      ensures State() == Refresh(old(State()))
      ensures exchanges == old(exchanges) && refreshes == old(refreshes) + 1
    {
      accessToken := JNull;
      cache.Drop(TokenKey);
      refreshes := refreshes + 1;
    }

    /** `_get_access_token`: the cache first, the credential exchange only
        when the cached token is not truthy. */
    method GetAccessToken(auth: string -> Result<HttpResponse>, decode: string -> Result<Json>) returns (r: Result<Json>)
      modifies this, cache
      ensures accessToken == old(accessToken) && refreshes == old(refreshes)
      ensures (cache.store, r) == FetchToken(old(cache.store), ExchangeOutcome(auth(sessionToken), decode))
      ensures exchanges == old(exchanges) + (if Truthy(Lookup(old(cache.store), TokenKey)) then 0 else 1)
    {
      var cached := cache.Get(TokenKey);
      if Truthy(cached) {
        return Ok(cached);
      }
      exchanges := exchanges + 1;
      var outcome := ExchangeOutcome(auth(sessionToken), decode);
      if outcome.Ok? {
        cache.Set(TokenKey, outcome.value);
      }
      r := outcome;
    }
  }

  // ---------------------------------------------------------------------
  // One request: OpenApiClient.conversation

  /** The reply `conversation` returns. */
  datatype Message = Message(conversationId: Json, parentId: Json, text: Json)

  /** The POST `conversation` sends, once the token has been read; building
      the Authorization header raises unless the token is a string. */
  function SentRequest(s: SessionState, p: PendingRequest, exchange: Result<Json>): (r: Result<PostRequest>)
    ensures r.Ok? ==> ReadToken(s, exchange).1.Ok? && ReadToken(s, exchange).1.value.JStr?
    ensures r.Ok? ==> r.value.url == ConversationUrl
  {
    var token :- ReadToken(s, exchange).1;
    var headers :- Headers(token);
    Ok(PostRequest(ConversationUrl, headers, RequestBody(p)))
  }

  /** The service's reply, if the request got as far as being sent. */
  function Posted(s: SessionState, p: PendingRequest, exchange: Result<Json>, post: PostRequest -> Result<HttpResponse>): Result<HttpResponse> {
    var request :- SentRequest(s, p, exchange);
    post(request)
  }

  /** `Message(...)` from the decoded frame, fields taken in the order Python
      evaluates them: the thread id, then `message.id`, then
      `message.content.parts[0]`. */
  function MessageOf(data: Json): (r: Result<Message>)
    ensures r.Ok? ==> Subscript(data, "conversation_id") == Ok(r.value.conversationId)
    ensures r.Ok? ==> Subscript(data, "message").Ok? && Subscript(data, "message").value.JObj?
    ensures r.Ok? ==> Subscript(Subscript(data, "message").value, "id") == Ok(r.value.parentId)
    ensures r.Ok? ==>
      var content := Subscript(Subscript(data, "message").value, "content");
      && content.Ok? && Subscript(content.value, "parts").Ok?
      && Item(Subscript(content.value, "parts").value, 0) == Ok(r.value.text)
  {
    var conversationId :- Subscript(data, "conversation_id");
    var message :- Subscript(data, "message");
    var parentId :- Subscript(message, "id");
    var content :- Subscript(message, "content");
    var parts :- Subscript(content, "parts");
    var text :- Item(parts, 0);
    Ok(Message(conversationId, parentId, text))
  }

  /** Reading a reply body: the fixed-offset payload, `json.loads`, then the
      fields. Every failure on the way raises. */
  function ParseReply(text: string, decode: string -> Result<Json>): (r: Result<Message>)
    ensures |SplitLines(text)| < 4 ==> r == Err(IndexError)
    ensures r.Ok? ==>
      && Payload(text).Ok? && decode(Payload(text).value).Ok?
      && Subscript(decode(Payload(text).value).value, "conversation_id") == Ok(r.value.conversationId)
  {
    var payload :- Payload(text);
    var data :- decode(payload);
    MessageOf(data)
  }

  /** `conversation`: read the token, send the request, refresh the token on
      a 401, and parse the reply body whatever the status. Returns the new
      session state and the reply. */
  function Converse(s: SessionState, p: PendingRequest, exchange: Result<Json>,
                    post: PostRequest -> Result<HttpResponse>, decode: string -> Result<Json>): (res: (SessionState, Result<Message>))
    ensures Posted(s, p, exchange, post).Err? ==> res == (ReadToken(s, exchange).0, Err(Posted(s, p, exchange, post).error))
    ensures Posted(s, p, exchange, post).Ok? ==> res.1 == ParseReply(Posted(s, p, exchange, post).value.text, decode)
  {
    var s1 := ReadToken(s, exchange).0;
    match Posted(s, p, exchange, post)
    case Err(e) => (s1, Err(e))
    case Ok(response) =>
      (if response.status == 401 then Refresh(s1) else s1, ParseReply(response.text, decode))
  }

  /** The request carries the conversation's thread id and pointer, the
      prompt as the only part of the only (user) message, and the token just
      read as its bearer credential. */
  lemma SentRequestCarries(s: SessionState, c: Conversation, prompt: string, messageId: string, exchange: Result<Json>)
    requires SentRequest(s, Pending(c, prompt, messageId), exchange).Ok?
    ensures var request := SentRequest(s, Pending(c, prompt, messageId), exchange).value;
      && ReadRequestBody(request.body) == Some(PendingRequest(prompt, messageId, c.id, c.parent))
      && "Authorization" in request.headers
      && BearerToken(request.headers["Authorization"]) == Some(ReadToken(s, exchange).1.value.s)
  {
    var p := Pending(c, prompt, messageId);
    RequestBodyRoundTrip(p);
    HeadersCarryToken(ReadToken(s, exchange).1.value.s);
  }

  /** A 401 forgets the token (memory and cache) but the body is still
      parsed: the call returns whatever the body yields. */
  lemma UnauthorizedRefreshesAndParses(s: SessionState, p: PendingRequest, exchange: Result<Json>,
                                       post: PostRequest -> Result<HttpResponse>, decode: string -> Result<Json>)
    requires Posted(s, p, exchange, post).Ok? && Posted(s, p, exchange, post).value.status == 401
    ensures var res := Converse(s, p, exchange, post, decode);
      && res.0 == Refresh(ReadToken(s, exchange).0)
      && NeedsExchange(res.0)
      && res.1 == ParseReply(Posted(s, p, exchange, post).value.text, decode)
  {
  }

  /** Any other status leaves the session as reading the token left it. */
  lemma OtherStatusKeepsToken(s: SessionState, p: PendingRequest, exchange: Result<Json>,
                              post: PostRequest -> Result<HttpResponse>, decode: string -> Result<Json>)
    requires Posted(s, p, exchange, post).Ok? && Posted(s, p, exchange, post).value.status != 401
    ensures Converse(s, p, exchange, post, decode).0 == ReadToken(s, exchange).0
  {
  }

  /** A well-formed streamed reply whose last data frame is a terminal frame
      yields that frame's thread id, message id and text. */
  lemma ParseReplyOfStream(payloads: seq<string>, decode: string -> Result<Json>,
                           conversationId: Json, messageId: Json, text: Json)
    requires payloads != [] && forall k :: 0 <= k < |payloads| ==> NoBreaks(payloads[k])
    requires decode(payloads[|payloads| - 1]) == Ok(TerminalFrame(conversationId, messageId, text))
    ensures ParseReply(Terminated(StreamLines(payloads)), decode) == Ok(Message(conversationId, messageId, text))
  {
    PayloadOfStream(payloads);
    ParseReplyOfFrame(Terminated(StreamLines(payloads)), payloads[|payloads| - 1], decode, conversationId, messageId, text);
  }

  lemma ParseReplyOfFrame(body: string, payload: string, decode: string -> Result<Json>,
                          conversationId: Json, messageId: Json, text: Json)
    requires Payload(body) == Ok(payload)
    requires decode(payload) == Ok(TerminalFrame(conversationId, messageId, text))
    ensures ParseReply(body, decode) == Ok(Message(conversationId, messageId, text))
  {
    MessageOfTerminalFrame(conversationId, messageId, text);
  }

  /** The fields are read from where the service puts them. */
  lemma MessageOfTerminalFrame(conversationId: Json, messageId: Json, text: Json)
    ensures MessageOf(TerminalFrame(conversationId, messageId, text)) == Ok(Message(conversationId, messageId, text))
  {
  }

  class OpenApiClient {
    const session: OpenApiChatSession

    constructor (session: OpenApiChatSession)
      ensures this.session == session
    {
      this.session := session;
    }

    /** `conversation`; `messageId` is the uuid of the user's message, `post`
        the service's answer to a request. */
    method Conversation(c: Conversation, prompt: string, messageId: string,
                        auth: string -> Result<HttpResponse>, post: PostRequest -> Result<HttpResponse>,
                        decode: string -> Result<Json>) returns (r: Result<Message>)
      modifies session, session.cache
      ensures var exchange := ExchangeOutcome(auth(session.sessionToken), decode);
        (session.State(), r) == Converse(old(session.State()), Pending(c, prompt, messageId), exchange, post, decode)
      ensures var exchange := ExchangeOutcome(auth(session.sessionToken), decode);
        var posted := Posted(old(session.State()), Pending(c, prompt, messageId), exchange, post);
        session.refreshes == old(session.refreshes) + (if posted.Ok? && posted.value.status == 401 then 1 else 0)
      ensures session.exchanges == old(session.exchanges) + (if NeedsExchange(old(session.State())) then 1 else 0)
    {
      var body := RequestBody(Pending(c, prompt, messageId));
      var token := session.AccessToken(auth, decode);
      if token.Err? {
        return Err(token.error);
      }
      var headers := Headers(token.value);
      if headers.Err? {
        return Err(headers.error);
      }
      var response := post(PostRequest(ConversationUrl, headers.value, body));
      if response.Err? {
        return Err(response.error);
      }
      if response.value.status == 401 {
        session.RefreshAccessToken();
      }
      r := ParseReply(response.value.text, decode);
    }
  }

  // ---------------------------------------------------------------------
  // One turn of ChatBot.run

  /** The bot's state: the conversation cache and the session. */
  datatype BotState = BotState(conversations: map<string, Json>, session: SessionState)

  /** One turn: load the named conversation, send the prompt, then overwrite
      both the thread id and the pointer from the reply and save. A turn that
      raises saves nothing. */
  function TakeTurn(b: BotState, name: string, defaultParent: string, prompt: string, messageId: string,
                exchange: Result<Json>, post: PostRequest -> Result<HttpResponse>,
                decode: string -> Result<Json>): (res: (BotState, Result<Message>))
    ensures res.1.Err? ==> res.0.conversations == b.conversations
  {
    match Load(b.conversations, name, TermBotPointerKey, defaultParent)
    case Err(e) => (b, Err(e))
    case Ok(c) =>
      var (s1, reply) := Converse(b.session, Pending(c, prompt, messageId), exchange, post, decode);
      match reply
      case Err(e) => (BotState(b.conversations, s1), Err(e))
      case Ok(m) =>
        var c' := c.(id := m.conversationId, parent := m.parentId);
        (BotState(Saved(b.conversations, c', TermBotPointerKey), s1), Ok(m))
  }

  /** The request a turn sends, if it gets that far. */
  function TurnRequest(b: BotState, name: string, defaultParent: string, prompt: string, messageId: string,
                       exchange: Result<Json>): Result<PostRequest> {
    var c :- Load(b.conversations, name, TermBotPointerKey, defaultParent);
    SentRequest(b.session, Pending(c, prompt, messageId), exchange)
  }

  /** After a successful turn the conversation is stored with both the new
      thread id and the new pointer; they are never saved one without the
      other. */
  lemma TurnAdvancesBoth(b: BotState, name: string, defaultParent: string, prompt: string, messageId: string,
                         exchange: Result<Json>, post: PostRequest -> Result<HttpResponse>, decode: string -> Result<Json>)
    requires KeyedByName(b.conversations, TermBotPointerKey, defaultParent)
    requires TakeTurn(b, name, defaultParent, prompt, messageId, exchange, post, decode).1.Ok?
    ensures var (b', reply) := TakeTurn(b, name, defaultParent, prompt, messageId, exchange, post, decode);
      && Load(b'.conversations, name, TermBotPointerKey, defaultParent).Ok?
      && Load(b'.conversations, name, TermBotPointerKey, defaultParent).value.id == reply.value.conversationId
      && Load(b'.conversations, name, TermBotPointerKey, defaultParent).value.parent == reply.value.parentId
      && KeyedByName(b'.conversations, TermBotPointerKey, defaultParent)
  {
    var c := Load(b.conversations, name, TermBotPointerKey, defaultParent).value;
    var m := TakeTurn(b, name, defaultParent, prompt, messageId, exchange, post, decode).1.value;
    var c' := c.(id := m.conversationId, parent := m.parentId);
    assert c.name == name;
    SaveThenLoad(b.conversations, c', TermBotPointerKey, defaultParent);
    SavePreservesKeyedByName(b.conversations, c', TermBotPointerKey, defaultParent);
  }

  /** Thread continuity: the turn after a successful one sends the thread id
      and message id that the first reply carried. */
  lemma NextTurnContinuesThread(b: BotState, name: string, defaultParent: string,
                                prompt: string, messageId: string, exchange: Result<Json>,
                                post: PostRequest -> Result<HttpResponse>, decode: string -> Result<Json>,
                                prompt2: string, messageId2: string, exchange2: Result<Json>)
    requires KeyedByName(b.conversations, TermBotPointerKey, defaultParent)
    requires TakeTurn(b, name, defaultParent, prompt, messageId, exchange, post, decode).1.Ok?
    ensures var (b', reply) := TakeTurn(b, name, defaultParent, prompt, messageId, exchange, post, decode);
      var next := TurnRequest(b', name, defaultParent, prompt2, messageId2, exchange2);
      next.Ok? ==>
        ReadRequestBody(next.value.body) ==
        Some(PendingRequest(prompt2, messageId2, reply.value.conversationId, reply.value.parentId))
  {
    TurnAdvancesBoth(b, name, defaultParent, prompt, messageId, exchange, post, decode);
    var (b', reply) := TakeTurn(b, name, defaultParent, prompt, messageId, exchange, post, decode);
    var c2 := Load(b'.conversations, name, TermBotPointerKey, defaultParent).value;
    var next := TurnRequest(b', name, defaultParent, prompt2, messageId2, exchange2);
    if next.Ok? {
      SentRequestCarries(b'.session, c2, prompt2, messageId2, exchange2);
    }
  }

  class ChatBot {
    const client: OpenApiClient
    const store: ConversationStore
    const conversationName: string

    /** The two cache files are distinct, and records use "parent_id". */
    predicate Valid()
      reads this, client, client.session
    {
      store.cache != client.session.cache && store.pointerKey == TermBotPointerKey
    }

    function State(): BotState
      reads this, store, store.cache, client, client.session, client.session.cache
    {
      BotState(store.cache.store, client.session.State())
    }

    constructor (client: OpenApiClient, conversationName: string, onDisk: map<string, Json>, defaultParent: string)
      ensures Valid() && this.client == client && this.conversationName == conversationName
      ensures store.cache.store == onDisk && store.defaultParent == defaultParent
    {
      this.client := client;
      store := new ConversationStore(onDisk, TermBotPointerKey, defaultParent);
      this.conversationName := conversationName;
    }

    /** One iteration of `run`'s loop, without the input and printing. */
    method Turn(prompt: string, messageId: string, auth: string -> Result<HttpResponse>,
                post: PostRequest -> Result<HttpResponse>, decode: string -> Result<Json>) returns (r: Result<Message>)
      requires Valid()
      modifies store.cache, client.session, client.session.cache
      ensures Valid()
      ensures (State(), r) == TakeTurn(old(State()), conversationName, store.defaultParent, prompt, messageId,
                                           ExchangeOutcome(auth(client.session.sessionToken), decode), post, decode)
    {
      var loaded := store.Get(conversationName);
      if loaded.Err? {
        return Err(loaded.error);
      }
      var c := loaded.value;
      var reply := client.Conversation(c, prompt, messageId, auth, post, decode);
      if reply.Err? {
        return Err(reply.error);
      }
      c := c.(id := reply.value.conversationId);
      c := c.(parent := reply.value.parentId);
      store.Save(c);
      r := reply;
    }
  }
}
