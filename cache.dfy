/** The persistent key-value cache (`DbmCache`): a dbm file mapping string keys
    to JSON-encoded values. The file's contents are the field `store`; the JSON
    encoding is lossless for `Json` values, so values are stored as they are. */
module Cache {
  import opened Py

  /** What `get` returns for a key: the stored value, or None when the key is
      absent (a stored null reads back the same way). */
  function Lookup(store: map<string, Json>, key: string): (v: Json)
    ensures key !in store ==> v == JNull
    ensures key in store ==> v == store[key]
  {
    if key in store then store[key] else JNull
  }

  class DbmCache {
    /** The contents of the dbm file. */
    var store: map<string, Json>

    /** Opening a cache gives access to whatever the file already holds. */
    constructor (onDisk: map<string, Json>)
      ensures store == onDisk
    {
      store := onDisk;
    }

    /** `get`: a missing key gives None rather than raising. */
    method Get(key: string) returns (v: Json)
      ensures key !in store ==> v == JNull
      ensures key in store ==> v == store[key]
    {
      if key in store {
        v := store[key];
      } else {
        v := JNull;
      }
    }

    /** `set`: the key now holds `value`; every other key is untouched. */
    method Set(key: string, value: Json)
      modifies this
      ensures store == old(store)[key := value]
      ensures Lookup(store, key) == value
      ensures forall k :: k != key ==> Lookup(store, k) == Lookup(old(store), k)
    {
      store := store[key := value];
    }

    /** `drop`: removes the key if present; dropping an absent key changes
        nothing and does not raise. */
    method Drop(key: string)
      modifies this
      ensures store == old(store) - {key}
      ensures key !in store && Lookup(store, key) == JNull
      ensures key !in old(store) ==> store == old(store)
      ensures forall k :: k != key ==> Lookup(store, k) == Lookup(old(store), k)
    {
      if key in store {
        store := store - {key};
      }
    }

    /** `list`: every stored key, each exactly once, in no particular order. */
    method List() returns (keys: seq<string>)
      ensures forall k :: k in keys <==> k in store
      ensures |keys| == |store|
      ensures forall i, j :: 0 <= i < j < |keys| ==> keys[i] != keys[j]
    {
      keys := [];
      var rest := store.Keys;
      while rest != {}
        invariant rest !! set k | k in keys
        invariant forall k :: k in store <==> k in keys || k in rest
        invariant |keys| + |rest| == |store|
        invariant forall i, j :: 0 <= i < j < |keys| ==> keys[i] != keys[j]
        decreases |rest|
      {
        var k :| k in rest;
        keys := keys + [k];
        rest := rest - {k};
      }
    }
  }

  /** Last write wins: a second `set` of the same key replaces the first. */
  lemma LastWriteWins(store: map<string, Json>, key: string, first: Json, second: Json)
    ensures Lookup(store[key := first][key := second], key) == second
    ensures store[key := first][key := second] == store[key := second]
  {
  }

  /** `drop` is idempotent, and after it `get` gives None whether or not the
      key was there. */
  lemma DropIdempotent(store: map<string, Json>, key: string)
    ensures (store - {key}) - {key} == store - {key}
    ensures Lookup(store - {key}, key) == JNull
  {
  }
}
