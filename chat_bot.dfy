/** chat_bot.py: one turn of `ChatBot.run` over the `OpenAiChatClient` and a
    conversation store whose records call the pointer `parent_message_id`.
    The conversation is saved before the reply's text is read, so a reply
    without a first part raises only after the save. */
module ChatBotApp {
  import opened Py
  import opened Upstream
  import opened Conversations
  import opened OpenAiChat

  /** The bot's state: the conversation cache and the client's in-memory
      token. */
  datatype BotState = BotState(conversations: map<string, Json>, token: Json)

  /** One turn: load the named conversation, send the prompt, overwrite both
      the thread id and the pointer from the response, save, then read the
      response's text. Returns the new state and the text printed. */
  function TakeTurn(b: BotState, name: string, defaultParent: string, prompt: string, messageId: string,
                    exchange: Result<Json>, post: PostRequest -> Result<HttpResponse>,
                    decode: string -> Result<Json>): (res: (BotState, Result<Json>))
    ensures var response := TurnResponse(b, name, defaultParent, prompt, messageId, exchange, post, decode);
      && (response.Err? ==> res.0.conversations == b.conversations && res.1 == Err(response.error))
      && (response.Ok? ==> res.1 == Text(response.value))
  {
    match Load(b.conversations, name, ChatBotPointerKey, defaultParent)
    case Err(e) => (b, Err(e))
    case Ok(c) =>
      var (token', reply) := Converse(b.token, Pending(c, prompt, messageId), exchange, post, decode);
      match reply
      case Err(e) => (BotState(b.conversations, token'), Err(e))
      case Ok(response) =>
        var c' := c.(id := response.conversationId, parent := response.message.id);
        (BotState(Saved(b.conversations, c', ChatBotPointerKey), token'), Text(response))
  }

  /** The response a turn gets back, if it gets that far. */
  function TurnResponse(b: BotState, name: string, defaultParent: string, prompt: string, messageId: string,
                        exchange: Result<Json>, post: PostRequest -> Result<HttpResponse>,
                        decode: string -> Result<Json>): Result<ConversationResponse> {
    var c :- Load(b.conversations, name, ChatBotPointerKey, defaultParent);
    Converse(b.token, Pending(c, prompt, messageId), exchange, post, decode).1
  }

  /** The request a turn sends, if it gets that far. */
  function TurnRequest(b: BotState, name: string, defaultParent: string, prompt: string, messageId: string,
                       exchange: Result<Json>): Result<PostRequest> {
    var c :- Load(b.conversations, name, ChatBotPointerKey, defaultParent);
    SentRequest(b.token, Pending(c, prompt, messageId), exchange)
  }

  /** A turn whose request fails (a 401 included) saves nothing; one that
      gets a response saves the conversation with both the response's thread
      id and its message id, even when reading the text then raises. */
  lemma TurnSavesBothOrNothing(b: BotState, name: string, defaultParent: string, prompt: string, messageId: string,
                               exchange: Result<Json>, post: PostRequest -> Result<HttpResponse>,
                               decode: string -> Result<Json>)
    requires KeyedByName(b.conversations, ChatBotPointerKey, defaultParent)
    ensures var (b', _) := TakeTurn(b, name, defaultParent, prompt, messageId, exchange, post, decode);
      var response := TurnResponse(b, name, defaultParent, prompt, messageId, exchange, post, decode);
      && (response.Err? ==> b'.conversations == b.conversations)
      && (response.Ok? ==>
            && Load(b'.conversations, name, ChatBotPointerKey, defaultParent).Ok?
            && Load(b'.conversations, name, ChatBotPointerKey, defaultParent).value.id == response.value.conversationId
            && Load(b'.conversations, name, ChatBotPointerKey, defaultParent).value.parent == response.value.message.id
            && KeyedByName(b'.conversations, ChatBotPointerKey, defaultParent))
  {
    var loaded := Load(b.conversations, name, ChatBotPointerKey, defaultParent);
    if loaded.Ok? {
      var c := loaded.value;
      var reply := Converse(b.token, Pending(c, prompt, messageId), exchange, post, decode).1;
      if reply.Ok? {
        var c' := c.(id := reply.value.conversationId, parent := reply.value.message.id);
        assert c.name == name;
        SaveThenLoad(b.conversations, c', ChatBotPointerKey, defaultParent);
        SavePreservesKeyedByName(b.conversations, c', ChatBotPointerKey, defaultParent);
      }
    }
  }

  /** Thread continuity: after a turn that got a response, the next turn
      sends that response's thread id and message id. */
  lemma NextTurnContinuesThread(b: BotState, name: string, defaultParent: string,
                                prompt: string, messageId: string, exchange: Result<Json>,
                                post: PostRequest -> Result<HttpResponse>, decode: string -> Result<Json>,
                                prompt2: string, messageId2: string, exchange2: Result<Json>)
    requires KeyedByName(b.conversations, ChatBotPointerKey, defaultParent)
    requires TurnResponse(b, name, defaultParent, prompt, messageId, exchange, post, decode).Ok?
    ensures var b' := TakeTurn(b, name, defaultParent, prompt, messageId, exchange, post, decode).0;
      var response := TurnResponse(b, name, defaultParent, prompt, messageId, exchange, post, decode).value;
      var next := TurnRequest(b', name, defaultParent, prompt2, messageId2, exchange2);
      next.Ok? ==>
        ReadRequestBody(next.value.body) ==
        Some(PendingRequest(prompt2, messageId2, response.conversationId, response.message.id))
  {
    TurnSavesBothOrNothing(b, name, defaultParent, prompt, messageId, exchange, post, decode);
    var b' := TakeTurn(b, name, defaultParent, prompt, messageId, exchange, post, decode).0;
    var c2 := Load(b'.conversations, name, ChatBotPointerKey, defaultParent).value;
    if TurnRequest(b', name, defaultParent, prompt2, messageId2, exchange2).Ok? {
      SentRequestCarries(b'.token, c2, prompt2, messageId2, exchange2);
    }
  }

  class ChatBot {
    const client: OpenAiChatClient
    const store: ConversationStore
    const conversationName: string

    function State(): BotState
      reads this, store, store.cache, client
    {
      BotState(store.cache.store, client.accessToken)
    }

    constructor (client: OpenAiChatClient, conversationName: string, onDisk: map<string, Json>, defaultParent: string)
      ensures this.client == client && this.conversationName == conversationName
      ensures store.pointerKey == ChatBotPointerKey && store.defaultParent == defaultParent
      ensures store.cache.store == onDisk
    {
      this.client := client;
      store := new ConversationStore(onDisk, ChatBotPointerKey, defaultParent);
      this.conversationName := conversationName;
    }

    /** One iteration of `run`'s loop, without the input and printing;
        returns the text that is printed. */
    method Turn(prompt: string, messageId: string, auth: string -> Result<HttpResponse>,
                post: PostRequest -> Result<HttpResponse>, decode: string -> Result<Json>) returns (r: Result<Json>)
      requires store.pointerKey == ChatBotPointerKey
      modifies store.cache, client
      ensures (State(), r) == TakeTurn(old(State()), conversationName, store.defaultParent, prompt, messageId,
                                       ExchangeOutcome(auth(client.sessionToken), decode), post, decode)
    {
      var loaded := store.Get(conversationName);
      if loaded.Err? {
        return Err(loaded.error);
      }
      var c := loaded.value;
      var response := client.Conversation(c, prompt, messageId, auth, post, decode);
      if response.Err? {
        return Err(response.error);
      }
      c := c.(id := response.value.conversationId);
      c := c.(parent := response.value.message.id);
      store.Save(c);
      r := Text(response.value);
    }
  }
}
