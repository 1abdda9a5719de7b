/** Named conversation records (`Conversation`, `ConversationStore`), kept in a
    `DbmCache` under the conversation's name. term-bot.py calls the
    continuation pointer `parent_id`; open_ai_chat.py and chat_bot.py call it
    `parent_message_id`; the store is otherwise the same in both. */
module Conversations {
  import opened Py
  import opened Cache
  import opened Upstream

  /** The record field that holds the continuation pointer, per variant. */
  const TermBotPointerKey := "parent_id"
  const ChatBotPointerKey := "parent_message_id"

  /** A pointer field name that does not clash with the other two fields. */
  predicate DistinctPointerKey(pointerKey: string) {
    pointerKey != "name" && pointerKey != "id"
  }

  /** A conversation: its name, its thread id (JNull when no thread has been
      started) and the id of the message the next turn attaches to. The two
      ids hold whatever the upstream's reply carried. */
  datatype Conversation = Conversation(name: string, id: Json, parent: Json)

  /** `Conversation(name)`: no thread yet, and the default parent id, which
      Python evaluates once when the class is defined, so every fresh
      conversation of one process shares `defaultParent`. */
  function Fresh(name: string, defaultParent: string): (c: Conversation)
    ensures c.name == name && c.id == JNull && c.parent == JStr(defaultParent)
  {
    Conversation(name, JNull, JStr(defaultParent))
  }

  /** `conversation.__dict__`, the record that `save` writes. */
  function Record(c: Conversation, pointerKey: string): (r: Json)
    requires DistinctPointerKey(pointerKey)
    ensures Truthy(r)
    ensures Subscript(r, "name") == Ok(JStr(c.name))
    ensures Subscript(r, "id") == Ok(c.id)
    ensures Subscript(r, pointerKey) == Ok(c.parent)
  {
    var fields := map["name" := JStr(c.name), "id" := c.id, pointerKey := c.parent];
    assert fields["name"] == JStr(c.name) && fields["id"] == c.id && fields[pointerKey] == c.parent;
    JObj(fields)
  }

  /** `Conversation(**data)`: a dict whose keys are among the three fields and
      include "name"; "id" and the pointer default as in `Conversation(name)`.
      Anything else raises TypeError. */
  function FromRecord(data: Json, pointerKey: string, defaultParent: string): (r: Result<Conversation>)
    ensures r.Err? ==> r.error == TypeError
    ensures r.Ok? ==> data.JObj? && "name" in data.fields && data.fields["name"] == JStr(r.value.name)
  {
    match data
    case JObj(fields) =>
      if !(fields.Keys <= {"name", "id", pointerKey}) || "name" !in fields || !fields["name"].JStr? then
        Err(TypeError)
      else
        Ok(Conversation(fields["name"].s,
                        if "id" in fields then fields["id"] else JNull,
                        if pointerKey in fields then fields[pointerKey] else JStr(defaultParent)))
    case _ => Err(TypeError)
  }

  /** Reading back a saved record gives the conversation that was saved. */
  lemma RecordRoundTrip(c: Conversation, pointerKey: string, defaultParent: string)
    requires DistinctPointerKey(pointerKey)
    ensures FromRecord(Record(c, pointerKey), pointerKey, defaultParent) == Ok(c)
  {
    var fields := Record(c, pointerKey).fields;
    assert fields.Keys == {"name", "id", pointerKey};
  }

  /** `ConversationStore.get`: with nothing truthy stored under the name (no
      entry, or an empty value) a fresh conversation, otherwise the stored
      record decoded. It never writes. */
  function Load(store: map<string, Json>, name: string, pointerKey: string, defaultParent: string): (r: Result<Conversation>)
    ensures !Truthy(Lookup(store, name)) ==> r == Ok(Fresh(name, defaultParent))
    ensures r.Err? ==> Truthy(Lookup(store, name)) && r.error == TypeError
  {
    var data := Lookup(store, name);
    if !Truthy(data) then Ok(Fresh(name, defaultParent))
    else FromRecord(data, pointerKey, defaultParent)
  }

  /** `ConversationStore.save`: the record goes under the conversation's own
      name, replacing whatever was there. */
  function Saved(store: map<string, Json>, c: Conversation, pointerKey: string): (r: map<string, Json>)
    requires DistinctPointerKey(pointerKey)
    ensures r.Keys == store.Keys + {c.name}
    ensures Lookup(r, c.name) == Record(c, pointerKey)
    ensures forall n :: n != c.name ==> Lookup(r, n) == Lookup(store, n)
  {
    store[c.name := Record(c, pointerKey)]
  }

  /** `save` then `get` of the same name gives back name, id and pointer, and
      leaves every other name's record as it was. */
  lemma SaveThenLoad(store: map<string, Json>, c: Conversation, pointerKey: string, defaultParent: string)
    requires DistinctPointerKey(pointerKey)
    ensures Load(Saved(store, c, pointerKey), c.name, pointerKey, defaultParent) == Ok(c)
    ensures forall n :: n != c.name ==>
      Lookup(Saved(store, c, pointerKey), n) == Lookup(store, n)
  {
    RecordRoundTrip(c, pointerKey, defaultParent);
  }

  /** What a turn asks of the service for this conversation: its thread id
      and its pointer go out with the prompt and the new message's id. */
  function Pending(c: Conversation, prompt: string, messageId: string): PendingRequest {
    PendingRequest(prompt, messageId, c.id, c.parent)
  }

  /** A later `save` under the same name overwrites the earlier one. */
  lemma SaveOverwrites(store: map<string, Json>, earlier: Conversation, later: Conversation, pointerKey: string)
    requires DistinctPointerKey(pointerKey) && earlier.name == later.name
    ensures Saved(Saved(store, earlier, pointerKey), later, pointerKey) == Saved(store, later, pointerKey)
  {
  }

  /** Every truthy record is stored under its own name, which `save` keeps
      true; then `get(name)` yields a conversation called `name`. */
  ghost predicate KeyedByName(store: map<string, Json>, pointerKey: string, defaultParent: string) {
    forall n :: n in store && Truthy(store[n]) ==>
      var r := FromRecord(store[n], pointerKey, defaultParent);
      r.Ok? ==> r.value.name == n
  }

  lemma SavePreservesKeyedByName(store: map<string, Json>, c: Conversation, pointerKey: string, defaultParent: string)
    requires DistinctPointerKey(pointerKey) && KeyedByName(store, pointerKey, defaultParent)
    ensures KeyedByName(Saved(store, c, pointerKey), pointerKey, defaultParent)
    ensures forall n :: Load(Saved(store, c, pointerKey), n, pointerKey, defaultParent).Ok? ==>
      Load(Saved(store, c, pointerKey), n, pointerKey, defaultParent).value.name == n
  {
    RecordRoundTrip(c, pointerKey, defaultParent);
  }

  class ConversationStore {
    /** The cache file that holds the records. */
    const cache: DbmCache
    /** The record field that holds the continuation pointer. */
    const pointerKey: string
    /** The parent id every fresh conversation of this process starts from. */
    const defaultParent: string

    constructor (onDisk: map<string, Json>, pointerKey: string, defaultParent: string)
      requires DistinctPointerKey(pointerKey)
      ensures fresh(cache) && cache.store == onDisk
      ensures this.pointerKey == pointerKey && this.defaultParent == defaultParent
    {
      cache := new DbmCache(onDisk);
      this.pointerKey := pointerKey;
      this.defaultParent := defaultParent;
    }

    /** `get`: the stored conversation, or a fresh one that is not written back. */
    method Get(name: string) returns (r: Result<Conversation>)
      ensures r == Load(cache.store, name, pointerKey, defaultParent)
      ensures !Truthy(Lookup(cache.store, name)) ==> r == Ok(Fresh(name, defaultParent))
    {
      var data := cache.Get(name);
      if !Truthy(data) {
        r := Ok(Fresh(name, defaultParent));
      } else {
        r := FromRecord(data, pointerKey, defaultParent);
      }
    }

    /** `save`: writes the record under the conversation's name. */
    method Save(c: Conversation)
      requires DistinctPointerKey(pointerKey)
      modifies cache
      ensures cache.store == Saved(old(cache.store), c, pointerKey)
      ensures Load(cache.store, c.name, pointerKey, defaultParent) == Ok(c)
    {
      cache.Set(c.name, Record(c, pointerKey));
      SaveThenLoad(old(cache.store), c, pointerKey, defaultParent);
    }

    /** `list`: exactly the names that have a stored record. */
    method List() returns (names: seq<string>)
      ensures forall n :: n in names <==> n in cache.store
      ensures forall i, j :: 0 <= i < j < |names| ==> names[i] != names[j]
    {
      names := cache.List();
    }
  }
}
