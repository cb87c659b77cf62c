/** How an invocation reads and updates the cache in front of the session store. */
module CacheFront {
  import opened Messages
  import opened Consolidation
  import opened SessionStore
  import opened WorkingMemory

  method GetCacheMemory(cache: CacheMemory, store: SessionMemory, user: string, sid: SessionId, now: nat)
    returns (history: seq<Message>)
    requires store.Valid()
    modifies cache
    ensures var hit := Lookup(old(cache.entries), (user, sid), now, cache.ttl);
      var rows := if sid in store.sessions then store.view[sid].rows else [];
      var transcript := seq(|rows|, i requires 0 <= i < |rows| => rows[i].message);
      if hit.Some? then history == hit.value && cache.entries == old(cache.entries)
      else history == transcript
           && cache.entries == Stored(old(cache.entries), (user, sid), transcript, now, cache.ttl)
  {
    var hit := cache.Load((user, sid), now);
    if hit.Some? { return hit.value; }
    history := store.LoadMessages(sid);
    cache.Store((user, sid), history, now);
  }

  /** A finished turn is stored first, and cached only if that worked. */
  method FinishTurn(cache: CacheMemory, store: SessionMemory, user: string, sid: SessionId, turn: (Message,
        Message), wall: int, now: nat)
    returns (ok: bool)
    requires store.Valid()
    modifies cache, store
    ensures store.Valid() && ok == (sid in old(store.sessions))
    ensures !ok ==> store.view == old(store.view) && cache.entries == old(cache.entries)
    ensures ok ==>
      && store.view == old(store.view)[sid := Exec(old(store.view)[sid], Step.Append([turn.0, turn.1], wall))]
      && cache.entries == WithTurn(old(cache.entries), (user, sid), turn.0, turn.1, now)
  {
    var stored := store.Append(sid, [turn.0, turn.1], wall);
    if stored.Err? { return false; }
    cache.AppendTurn((user, sid), turn.0, turn.1, now);
    return true;
  }
}
