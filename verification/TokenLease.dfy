/**
  * A Redis key taken with `SET key token NX EX ttl` and given back by the
  * compare-and-delete script. Both the per-key lock and the reaper lease are one.
  */
module TokenLease {
  import opened Options

  datatype Lease = Lease(token: nat, expires: nat)

  /** Redis answers `nil` for a key whose expiry has come. */
  predicate Free(slot: Option<Lease>, now: nat) {
    slot.None? || slot.value.expires <= now
  }

  function Take(token: nat, now: nat, ttl: nat): Option<Lease> {
    Some(Lease(token, now + ttl))
  }

  /** Deletes the key only when it still holds the caller's own token. */
  function Release(slot: Option<Lease>, now: nat, token: nat): Option<Lease> {
    if !Free(slot, now) && slot.value.token == token then None else slot
  }

  /**
    * The life of a lease: it runs for its length and not a moment longer, its holder can end it before
    * that, and nobody else can.
    */
  lemma LeaseLife(token: nat, now: nat, ttl: nat, later: nat, other: nat)
    requires now <= later
    ensures var slot := Take(token, now, ttl);
            && (Free(slot, later) <==> later >= now + ttl)
            && Free(Release(slot, later, token), later)
            && (other != token ==> Release(slot, later, other) == slot)
  {
  }
}
