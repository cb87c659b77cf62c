/** The in-process cache of recent turns, with its time to live. */
module WorkingMemory {
  import opened Messages
  import opened Wrappers

  type Key = (string, nat)

  datatype Entry = Entry(messages: seq<Message>, lastUsed: nat)

  type Entries = map<Key, Entry>

  predicate Fresh(e: Entry, now: nat, ttl: nat) {
    now - e.lastUsed <= ttl
  }

  function Lookup(entries: Entries, key: Key, now: nat, ttl: nat): Option<seq<Message>> {
    if key in entries && Fresh(entries[key], now, ttl) then Some(entries[key].messages) else None
  }

  function Swept(entries: Entries, now: nat, ttl: nat): Entries {
    map k | k in entries && Fresh(entries[k], now, ttl) :: entries[k]
  }

  function Stored(entries: Entries, key: Key, messages: seq<Message>, now: nat, ttl: nat): Entries {
    Swept(entries, now, ttl)[key := Entry(messages, now)]
  }

  function WithTurn(entries: Entries, key: Key, user: Message, assistant: Message, now: nat): Entries {
    entries[key := Entry((if key in entries then entries[key].messages else []) + [user, assistant], now)]
  }

  class CacheMemory {
    var entries: Entries
    const ttl: nat

    constructor (ttl: nat)
      ensures entries == map[] && this.ttl == ttl
    {
      entries := map[];
      this.ttl := ttl;
    }

    /** A hit leaves the entry's age as it is. */
    method Load(key: Key, now: nat) returns (r: Option<seq<Message>>)
      ensures r == Lookup(entries, key, now, ttl)
    {
      if key !in entries { return None; }
      if now - entries[key].lastUsed <= ttl {
        r := Some(entries[key].messages);
      } else {
        r := None;
      }
    }

    /** Replaces the entry; expired entries of every session go with it. */
    method Store(key: Key, messages: seq<Message>, now: nat)
      modifies this
      ensures entries == Stored(old(entries), key, messages, now, ttl)
      ensures forall k | k != key :: Lookup(entries, k, now, ttl) == Lookup(old(entries), k, now, ttl)
    {
      var kept := map[];
      var keys := entries.Keys;
      while keys != {}
        invariant keys <= entries.Keys && entries == old(entries)
        invariant kept == map k | k in entries && k !in keys && Fresh(entries[k], now, ttl) :: entries[k]
        decreases keys
      {
        var k :| k in keys;
        keys := keys - {k};
        if now - entries[k].lastUsed <= ttl { kept := kept[k := entries[k]]; }
      }
      entries := kept[key := Entry(messages, now)];
    }

    /** Extends the entry, even an expired one; an evicted one starts again with the turn. */
    method AppendTurn(key: Key, user: Message, assistant: Message, now: nat)
      modifies this
      ensures entries == WithTurn(old(entries), key, user, assistant, now)
      ensures Lookup(entries, key, now, ttl)
        == Some((if key in old(entries) then old(entries)[key].messages else []) + [user, assistant])
    {
      if key in entries {
        var messages := entries[key].messages;
        messages := messages + [user];
        messages := messages + [assistant];
        assert messages == entries[key].messages + [user, assistant];
        entries := entries[key := Entry(messages, now)];
      } else {
        entries := entries[key := Entry([user, assistant], now)];
        assert [] + [user, assistant] == [user, assistant];
      }
    }

    method Evict(key: Key)
      modifies this
      ensures entries == old(entries) - {key}
    {
      entries := entries - {key};
    }
  }
}
