/** `SessionResolver` over the shared store, tied to the sliding window of `Sessions`. */
module Resolver {
  import opened Options
  import opened Naming
  import opened Keyspace
  import opened Caches
  import Sessions

  /** A user's window as it stands in the store; only texts with a deadline are ever put there. */
  function HeldIn(store: map<string, Cell>, oid: string): Option<Sessions.Held> {
    var k := Render(UserSession(oid));
    if k in store && store[k].value.Text? && store[k].expires.Some?
    then Some(Sessions.Held(store[k].value.text, store[k].expires.value)) else None
  }

  predicate Tidy(store: map<string, Cell>, oid: string) {
    var k := Render(UserSession(oid));
    k in store ==> store[k].value.Text? && store[k].expires.Some?
  }

  /** What a call puts into the store for a user is what the next call of the user finds there. */
  lemma WrittenIsHeld(store: map<string, Cell>, oid: string, held: Sessions.Held)
    ensures var after := store[Render(UserSession(oid)) := Cell(Text(held.id), Some(held.expires))];
            && Tidy(after, oid) && HeldIn(after, oid) == Some(held)
            && (Render(UserSession(oid)) !in store ==> HeldIn(store, oid) == None)
  {
  }

  class SessionResolver {
    const cache: UserSessionCache
    const ttl: nat

    constructor (cache: UserSessionCache, ttl: nat)
      ensures this.cache == cache && this.ttl == ttl
    {
      this.cache, this.ttl := cache, ttl;
    }

    predicate Mounted()
    {
      cache.Mounted() && cache.backend.ttl == Some(ttl)
    }

    method Resolve(oid: Option<string>, transport: Option<string>, request: Option<string>)
      returns (session: string, conversation: Option<string>)
      requires Mounted() && cache.backend.server.now >= 0.0
      requires oid.Some? ==> Tidy(cache.backend.server.store, oid.value)
      modifies cache.backend.server`store
      ensures conversation == if transport.Some? && transport.value != "" then transport else request
      ensures oid.Some? ==> Tidy(cache.backend.server.store, oid.value)
      ensures oid.None? ==>
                session == (if transport.Some? && transport.value != "" then transport.value else "anon")
                && cache.backend.server.store == old(cache.backend.server.store)
      ensures oid.Some? ==>
                var at := cache.backend.server.now;
                var r := Sessions.Resolve(ttl, HeldIn(old(cache.backend.server.store), oid.value), at,
                                          Sessions.Mint(oid.value, transport, at));
                && session == r.id
                && cache.backend.server.store ==
                     old(cache.backend.server.store)[Render(UserSession(oid.value)) := Cell(Text(r.held.id), Some(r.held.expires))]
    {
      conversation := if Sessions.Present(transport) then transport else request;
      if oid.None? {
        return if Sessions.Present(transport) then transport.value else "anon", conversation;
      }
      var existing := cache.Get(oid.value);
      if existing.Some? && existing.value.Text? && existing.value.text != "" {
        return existing.value.text, conversation;
      }
      session := Sessions.Mint(oid.value, transport, cache.backend.server.now);
      cache.Set(oid.value, session);
    }
  }
}
