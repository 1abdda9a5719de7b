# A verified model of a command-line chat client

This project models, in Dafny, the stateful core of a small command-line
client for a hosted chat service (the repository kaar/ChatGPT). The client
exchanges a long-lived session credential for a short-lived access token,
sends one prompt per turn, reads the reply out of a streamed body, and keeps
named conversations (a thread id and a pointer to the last message) in a
persistent key-value cache. The repository holds two variants of this
program:

- term-bot.py keeps the token both in memory and in a session cache. It
  drops the token on a 401 and then still parses the body.
- open_ai_chat.py with chat_bot.py keeps the token in memory only. On a 401
  it clears the token and raises `ValueError`.

Both variants are modelled. The shared parts are modelled once.

Modules, leaf to root:

- `Py` (py.dfy): the Python values the client handles once JSON is decoded
  (`Json`, where `JNull` is None), Python truth testing (`Truthy`), the
  subscripts `d[k]` and `xs[0]`, the slice `s[n:]`, and the exceptions raised,
  as a `Result`.
- `Lines` (lines.dfy): `str.splitlines()` with every line boundary Python
  recognises, and the fixed-offset frame extraction
  `text.splitlines()[-4][6:]`. It is proved against the shape of a streamed
  reply: the extracted payload is the last data frame before `[DONE]`.
- `Cache` (cache.dfy): `DbmCache` from cache.py. term-bot.py holds an
  identical copy at term-bot.py:17-42. The class holds the file's contents as
  a `map<string, Json>`.
- `Conversations` (conversations.dfy): `Conversation`, its stored record, and
  `ConversationStore`. The store is shared by term-bot.py:57-80 and
  chat_bot.py:15-38. The two differ only in the name of the pointer field
  (`parent_id` or `parent_message_id`), which the store takes as a parameter.
- `Upstream` (upstream.dfy): the credential exchange's outcome, the request
  body and headers, and the terminal frame the service sends. Each comes with
  the service's reading of it.
- `TermBot` (term_bot.dfy): `OpenApiChatSession`, `OpenApiClient` and one
  turn of `ChatBot.run` from term-bot.py.
- `OpenAiChat` (open_ai_chat.dfy): `OpenAiChatClient` and
  `ConversationResponse` from open_ai_chat.py.
- `ChatBotApp` (chat_bot.dfy): one turn of `ChatBot.run` from chat_bot.py.

The outside world enters as parameters:

- the authentication endpoint's answer, as a function from the session
  credential to a `Result<HttpResponse>`;
- the conversation endpoint's answer, as a function from the `PostRequest`
  to a `Result<HttpResponse>`;
- `json.loads`, as a function `decode` left uninterpreted;
- each uuid, as a string argument.

Each class's state has an abstract value (`SessionState`, `BotState`, the
cache's map). A pure function says what each operation does to that value,
and each method is proved to follow its function. The lemmas about those
functions carry the properties. Ghost counters in the classes record how
many credential exchanges and token refreshes a call performs.

Four behaviours of the code that the model keeps as written:

- There is no retry anywhere in the code. open_ai_chat.py:110 is a
  placeholder comment, so no retry is modelled.
- The reply is read at a fixed offset (the 4th line from the end, minus six
  characters). The code does not scan for the last frame.
- A fresh conversation's parent id is a default evaluated once, when the
  class is defined. All fresh conversations of one process therefore share it
  (`ConversationStore.defaultParent`). The code does not draw a new id per
  conversation.
- term-bot.py does not raise on a 401. It refreshes the token and goes on to
  parse whatever body came back.

## Model

| member | source | states |
|---|---|---|
| `Py.Subscript` | term-bot.py:182-184 | `d[k]` succeeds exactly on a dict holding `k` and yields its value; a dict without `k` raises KeyError, any other value raises TypeError |
| `Py.Truthy` | term-bot.py:63-67 | Python truth testing as every `if x:` / `if not x:` of the client uses it: a value is false exactly when it is None, False, 0, "", [] or {} |
| `Py.Item` | open_ai_chat.py:51-53 | `xs[i]` succeeds exactly when `i` is in range of a list or string, giving the element or one-character string |
| `Py.DropPrefix` | term-bot.py:177 | `s[n:]` never raises: it is empty when `s` is no longer than `n`, otherwise the last `|s| - n` characters of `s` |
| `Lines.SplitLines` | term-bot.py:176 | `splitlines()` yields lines free of line boundaries, no lines exactly for the empty string, and the string itself when it has no boundary |
| `Lines.SplitTerminated` | open_ai_chat.py:113 | splitting a body whose lines each end in "\n" gives back exactly those lines (induction over the lines) |
| `Lines.Payload` | term-bot.py:175-179 | the payload fails with IndexError exactly when the body has fewer than four lines; otherwise it is the 4th-from-last line without its first six characters |
| `Lines.PayloadOfTerminated` | term-bot.py:176-177 | on a body of terminated, break-free lines the payload is the 4th of those lines from the end without its first six characters, and IndexError when there are fewer than four |
| `Lines.PayloadOfStream` | open_ai_chat.py:113 | on a stream of data frames followed by "[DONE]", the extracted payload is the last data frame; a stream with no data frame raises IndexError |
| `Cache.Lookup` | cache.py:16-20 | `get` of an absent key gives None rather than raising; a present key gives its stored value |
| `Cache.DbmCache.constructor` | cache.py:9-14 | opening the cache exposes exactly the file's current contents |
| `Cache.DbmCache.Get` | cache.py:16-20 | reads without writing; None for an absent key, the stored value otherwise |
| `Cache.DbmCache.Set` | cache.py:22-24 | afterwards `get(k)` returns the value just set and every other key reads as before |
| `Cache.DbmCache.Drop` | cache.py:26-29 | afterwards the key is absent and reads as None; dropping an absent key changes nothing; other keys are untouched |
| `Cache.DbmCache.List` | cache.py:31-33 | returns every stored key exactly once and nothing else (loop over the key set with invariants) |
| `Cache.LastWriteWins` | cache.py:22-24 | a second `set` of a key replaces the first: the store equals one with only the second write |
| `Cache.DropIdempotent` | cache.py:26-29 | dropping twice equals dropping once, and afterwards the key reads as None |
| `Conversations.Fresh` | open_ai_chat.py:18-22 | `Conversation(name)` has the given name, no thread id (None) and the process-wide default parent id |
| `Conversations.Record` | term-bot.py:73-77 | the saved record is a truthy dict whose `name`, `id` and pointer fields hold the conversation's values |
| `Conversations.FromRecord` | term-bot.py:69 | `Conversation(**data)` raises only TypeError, and a decoded conversation takes its name from the record's `name` field |
| `Conversations.RecordRoundTrip` | term-bot.py:69-77 | decoding the record `save` writes gives back the same name, id and pointer |
| `Conversations.Load` | term-bot.py:63-71 | with nothing truthy stored under the name (no entry, an empty string or dict, null), `get` returns a fresh conversation with id None; it raises only on a truthy record it cannot decode |
| `Conversations.Saved` | chat_bot.py:31-35 | `save` stores the record under the conversation's name, adding that key if it was new, and every other name reads as before |
| `Conversations.SaveThenLoad` | chat_bot.py:21-35 | `save` then `get` of the same name returns name, id and `parent_message_id` unchanged, and no other name's record changes |
| `Conversations.SaveOverwrites` | chat_bot.py:35 | a later save under the same name overwrites the earlier record |
| `Conversations.SavePreservesKeyedByName` | term-bot.py:73-77 | saving keeps every record under its own name, so `get(name)` yields a conversation called `name` |
| `Conversations.ConversationStore.constructor` | chat_bot.py:16-19 | the store opens its own cache over the file's contents, with the variant's pointer field and default parent |
| `Conversations.ConversationStore.Get` | chat_bot.py:21-29 | follows `Load` and never writes: a missing or falsy record gives `Conversation(name)` with id None |
| `Conversations.ConversationStore.Save` | chat_bot.py:31-35 | writes the record under the conversation's name, after which `get` of that name returns the conversation |
| `Conversations.ConversationStore.List` | chat_bot.py:37-38 | returns exactly the saved names, each once |
| `Upstream.ExchangeOutcome` | term-bot.py:83-94 | an exchange succeeds exactly when the transport succeeds, the status is not 4xx/5xx, the body decodes and has `accessToken`, and then yields that field; a 4xx/5xx raises HttpError with that status |
| `Upstream.RequestBody` | term-bot.py:148-160 | the body is a "next" action for the fixed model that carries the conversation's thread id (None included) and its pointer as `parent_message_id` |
| `Upstream.ReadRequestBody` | open_ai_chat.py:84-96 | the service's reading of a body; whatever it accepts has action "next" and carries the body's `conversation_id` and `parent_message_id` |
| `Upstream.RequestBodyRoundTrip` | term-bot.py:148-160 | the body carries exactly one user message whose parts are [prompt], the message id, the thread id (even None) and the pointer, all readable back unchanged |
| `Upstream.Headers` | open_ai_chat.py:97-101 | building the headers raises TypeError unless the token is a string, and otherwise yields Accept, Authorization and Content-Type |
| `Upstream.BearerToken` | open_ai_chat.py:99 | the service's reading of the Authorization header: any token it extracts is exactly what follows "Bearer " |
| `Upstream.HeadersCarryToken` | open_ai_chat.py:99 | the Authorization header is "Bearer " followed by exactly the current token |
| `TermBot.FetchToken` | term-bot.py:115-133 | a truthy cached token is returned with no exchange and no write; otherwise the exchange's outcome is returned and, on success, written to the cache, while a failed exchange leaves the cache as it was; other keys are untouched |
| `TermBot.ReadToken` | term-bot.py:105-109 | a truthy in-memory token is returned unchanged; with memory empty, a truthy cached token is returned and kept in memory, the cache untouched; when both layers are falsy the result is the exchange's outcome and a successful one is cached; a failed read leaves the session as it was |
| `TermBot.Refresh` | term-bot.py:111-113 | clears the in-memory token and removes `access_token` from the cache, other keys untouched, so that the next read exchanges |
| `TermBot.ReadWithoutExchange` | term-bot.py:105-119 | when either layer holds a truthy token, the read does not depend on what an exchange would answer |
| `TermBot.RepeatedRead` | term-bot.py:105-109 | once a truthy token has been read, reading again returns the same token and changes nothing |
| `TermBot.RefreshThenRead` | term-bot.py:111-127 | after a refresh the next read returns exactly a fresh exchange's outcome, never the stale token, and caches it |
| `TermBot.OpenApiChatSession.constructor` | term-bot.py:98-103 | a new session has no token in memory and sees the session cache file's contents |
| `TermBot.OpenApiChatSession.AccessToken` | term-bot.py:105-109 | follows `ReadToken`, and performs one exchange exactly when neither layer holds a truthy token |
| `TermBot.OpenApiChatSession.RefreshAccessToken` | term-bot.py:111-113 | follows `Refresh`, counts one refresh and performs no exchange |
| `TermBot.OpenApiChatSession.GetAccessToken` | term-bot.py:115-133 | follows `FetchToken`, leaves the in-memory token alone, and exchanges exactly when the cached token is falsy |
| `TermBot.SentRequest` | term-bot.py:161-170 | a request is sent only after a string token was read, and it goes to the conversation URL |
| `TermBot.MessageOf` | term-bot.py:180-185 | a decoded `Message` takes `conversation_id` from the frame, `parent_id` from `message.id` and `text` from `message.content.parts[0]` |
| `TermBot.MessageOfTerminalFrame` | term-bot.py:181-185 | on a terminal frame the message carries that frame's thread id, message id and text (`parts[0]`) |
| `TermBot.ParseReply` | term-bot.py:175-185 | a body of fewer than four lines raises IndexError; a parsed reply comes from a frame that decoded, and carries that frame's `conversation_id` |
| `TermBot.Converse` | term-bot.py:147-185 | a call that fails before any response leaves the session as the token read left it; once a response arrives, the result is the parse of its body whatever its status |
| `TermBot.SentRequestCarries` | term-bot.py:148-165 | the request body carries `conversation.id`, `conversation.parent_id` and one user message with parts [prompt]; the header carries the token just read |
| `TermBot.UnauthorizedRefreshesAndParses` | term-bot.py:171-180 | on a 401 the token is cleared from memory and cache, so the next read exchanges, yet the body is still parsed and its result returned |
| `TermBot.OtherStatusKeepsToken` | term-bot.py:171-173 | any status other than 401 leaves the session as the token read left it |
| `TermBot.ParseReplyOfStream` | term-bot.py:175-185 | a streamed reply whose last data frame is a terminal frame yields that frame's thread id, message id and text |
| `TermBot.OpenApiClient.constructor` | term-bot.py:144-145 | the client uses the given session |
| `TermBot.OpenApiClient.Conversation` | term-bot.py:147-185 | follows `Converse`, calls `refresh_access_token` exactly once when the response is a 401 and never otherwise, and performs one credential exchange exactly when neither token layer is truthy |
| `TermBot.TakeTurn` | term-bot.py:194-205 | a turn that raises leaves the conversation store untouched |
| `TermBot.TurnAdvancesBoth` | term-bot.py:196-205 | after a successful turn, `get(name)` returns the conversation with both the reply's thread id and its message id, never one without the other |
| `TermBot.NextTurnContinuesThread` | term-bot.py:196-205 | the turn after a successful one sends the first reply's thread id as `conversation_id` and its message id as `parent_message_id` |
| `TermBot.ChatBot.constructor` | term-bot.py:189-192 | the bot's conversation store is its own cache, distinct from the session's, and uses `parent_id` records |
| `TermBot.ChatBot.Turn` | term-bot.py:195-205 | one loop iteration follows `TakeTurn`: load, converse, overwrite id and pointer, save |
| `OpenAiChat.Text` | open_ai_chat.py:51-53 | `text` is the first of the message's parts; on a list of parts it fails exactly when the list is empty |
| `OpenAiChat.ResponseOf` | open_ai_chat.py:114-133 | a decoded response takes `conversation_id` from the frame, the message id from `message.id` and its parts from `message.content.parts`, so `text` is the frame's first part |
| `OpenAiChat.ResponseOfTerminalFrame` | open_ai_chat.py:113-133 | a terminal frame decodes, and the response's thread id, message id and `text` are the frame's |
| `OpenAiChat.ParseResponse` | open_ai_chat.py:113-133 | a body of fewer than four lines raises IndexError; a parsed response comes from a frame that decoded, and carries that frame's `conversation_id` |
| `OpenAiChat.ParseResponseOfStream` | open_ai_chat.py:113 | a streamed reply whose last data frame is a terminal frame yields that frame's thread id, message id and text |
| `OpenAiChat.ReadToken` | open_ai_chat.py:75-79 | a truthy token is returned with no exchange; otherwise the result is one exchange's outcome, kept in memory on success and leaving the token as it was on failure |
| `OpenAiChat.SentRequest` | open_ai_chat.py:97-106 | a request is sent only after a string token was read |
| `OpenAiChat.Converse` | open_ai_chat.py:81-133 | a failure before any response leaves the token as the read left it; a response other than 401 is parsed |
| `OpenAiChat.UnauthorizedRaises` | open_ai_chat.py:107-111 | a 401 sets the token to None and raises ValueError whatever the body, with no retry; the next token read performs a fresh exchange |
| `OpenAiChat.SentRequestCarries` | open_ai_chat.py:84-101 | the body carries `conversation.id` (None for a new thread), `parent_message_id` and one user message with parts [prompt]; Authorization is "Bearer " + the token |
| `OpenAiChat.OpenAiChatClient.constructor` | open_ai_chat.py:57-59 | a new client holds the session credential and no token |
| `OpenAiChat.OpenAiChatClient.GetAccessToken` | open_ai_chat.py:61-73 | performs exactly one exchange and returns its outcome |
| `OpenAiChat.OpenAiChatClient.AccessToken` | open_ai_chat.py:75-79 | follows `ReadToken`, with one exchange exactly when the token in memory is falsy |
| `OpenAiChat.OpenAiChatClient.Conversation` | open_ai_chat.py:81-133 | follows `Converse` |
| `ChatBotApp.TurnSavesBothOrNothing` | chat_bot.py:49-58 | a turn whose request fails saves nothing; one that gets a response saves both its thread id and its message id, even if reading `text` then raises |
| `ChatBotApp.NextTurnContinuesThread` | chat_bot.py:49-58 | the turn after one that got a response sends that response's thread id and message id |
| `ChatBotApp.TakeTurn` | chat_bot.py:49-61 | a turn that gets no response leaves the conversations unchanged and raises that error; one that gets a response returns its `text`, which may raise |
| `ChatBotApp.ChatBot.constructor` | chat_bot.py:42-45 | the bot opens its conversation store with `parent_message_id` records |
| `ChatBotApp.ChatBot.Turn` | chat_bot.py:47-61 | one loop iteration: load, converse, overwrite id and pointer, save, then read `text` |

## Left out

- HTTP, the dbm files and JSON. Requests are oracles passed in as parameters
  (term-bot.py:83-94, 121-133, 166-170; open_ai_chat.py:61-73, 102-106). The
  dbm file is a map, and directory creation and path building are left out
  (cache.py:9-14, term-bot.py:59-61, 100-102). `json.loads` is an
  uninterpreted function, and the cache's JSON round trip is taken as
  lossless.
- Numbers in `Json` are integers only. Floating-point values, such as the
  message's `weight`, are not represented.
- Message fields the client never reads (`user`, `create_time`,
  `update_time`, `end_turn`, `weight`, `metadata`, `recipient`,
  open_ai_chat.py:32-42): their presence is required, as Python's lookups
  require it, but their values are not kept.
- uuid generation is nondeterministic. The message id is a parameter, and
  the class-level default parent id is the store's `defaultParent`.
- Logging, reading environment variables, module-level start-up, and the
  `input`/`print` loop of `ChatBot.run` (term-bot.py:207-222,
  chat_bot.py:60-72). Only one iteration's update is modelled.
- chat.py is not part of this model. It only wires the pieces together, and
  it imports `OpenAiChatSession`, which open_ai_chat.py does not define.
- Races between processes on the same cache file.
- Conversations.FromRecord: a stored record whose `name` is not a string is
  rejected with TypeError when it is loaded. Python would build the
  conversation and raise only when `save` uses the name as a dbm key, after
  the request has been sent.
- Cache.DbmCache.List: returns keys as the strings they were set with. dbm
  returns them as their UTF-8 encoded bytes, and that encoding is not
  represented.
- Py.Error: exceptions are modelled by kind only. A KeyError does not record
  the missing key, so two lookups that fail with the same kind are not told
  apart.
- TermBot.TurnAdvancesBoth, TermBot.NextTurnContinuesThread and
  ChatBotApp.TurnSavesBothOrNothing hold only for stores in which every
  record sits under its own `name` field. `save` writes a loaded record under
  that field, so a record whose `name` differs from its key is saved under
  another key, and the named conversation never advances.
