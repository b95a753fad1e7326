/** The in-memory nonce guard and idempotency cache
    (internal/infrastructure/memory/stores.go). Each operation is one atomic step;
    the clock reading `now` is an explicit argument. */
module Stores {
  import opened Wrappers

  /** Both stores scope a key to a tenant by joining the two with ':'. */
  function ScopedKey(tenant: string, key: string): (k: string)
    ensures |k| == |tenant| + 1 + |key|
    ensures k[..|tenant|] == tenant && k[|tenant|] == ':' && k[|tenant| + 1..] == key
  {
    tenant + ":" + key
  }

  /** When no tenant contains ':', distinct (tenant, key) pairs get distinct store keys. */
  lemma {:induction false} ScopedKeyInjective(t1: string, k1: string, t2: string, k2: string)
    requires ':' !in t1 && ':' !in t2
    requires ScopedKey(t1, k1) == ScopedKey(t2, k2)
    ensures t1 == t2 && k1 == k2
  {
    var s := ScopedKey(t1, k1);
    assert forall i | 0 <= i < |t1| :: s[i] == t1[i];
    assert forall i | 0 <= i < |t2| :: s[i] == t2[i];
    assert s[|t1|] == ':' && s[|t2|] == ':';
    assert |t1| == |t2|;
    assert t1 == s[..|t1|] && k1 == s[|t1| + 1..];
  }

  /** Scoping is only by concatenation: tenant "a:b" with key "c" and tenant "a" with key
      "b:c" share one entry in either store. */
  lemma ScopedKeyCollides()
    ensures ScopedKey("a:b", "c") == ScopedKey("a", "b:c")
  {
  }

  /** A nonce key is fresh at `now` unless it has an entry expiring strictly after `now`. */
  predicate Fresh(items: map<string, int>, key: string, now: int)
  {
    !(key in items && now < items[key])
  }

  /** The replay guard: a map from scoped nonce to expiry time. */
  class NonceStore {
    var items: map<string, int>

    constructor ()
      ensures items == map[]
    {
      items := map[];
    }

    /** Accepts the nonce and records expiry now + ttl when it is fresh; otherwise
        rejects it and changes nothing. The in-memory store never reports an error. */
    method CheckAndSet(tenant: string, nonce: string, ttl: int, now: int) returns (ok: bool)
      modifies this
      ensures ok <==> Fresh(old(items), ScopedKey(tenant, nonce), now)
      ensures !ok ==> items == old(items)
      ensures ok ==> items == old(items)[ScopedKey(tenant, nonce) := now + ttl]
    {
      var key := tenant + ":" + nonce;
      if key in items && now < items[key] {
        return false;
      }
      items := items[key := now + ttl];
      return true;
    }
  }

  /** Once accepted at `now`, a nonce is rejected until its ttl runs out, and only then. */
  lemma AcceptedNonceBlocksUntilExpiry(items: map<string, int>, key: string, now: int, ttl: int, later: int)
    ensures Fresh(items[key := now + ttl], key, later) <==> now + ttl <= later
  {
  }

  /** Recording one nonce never changes whether another key is fresh. */
  lemma OtherNoncesUnaffected(items: map<string, int>, key: string, other: string, exp: int, now: int)
    requires other != key
    ensures Fresh(items[key := exp], other, now) == Fresh(items, other, now)
  {
  }

  /** One cached value and its expiry time. */
  datatype Entry<V> = Entry(value: V, exp: int)

  /** What Get finds: the value, unless the entry is missing or `now` is past its expiry. */
  function Lookup<V>(items: map<string, Entry<V>>, key: string, now: int): (r: Option<V>)
  {
    if key in items && now <= items[key].exp then Some(items[key].value) else None
  }

  /** The entries left after Get at `now`: an expired entry for `key` is deleted. */
  function Purge<V>(items: map<string, Entry<V>>, key: string, now: int): (r: map<string, Entry<V>>)
    ensures r.Keys <= items.Keys
    ensures forall k | k in r :: r[k] == items[k]
    ensures forall k | k in items && k != key :: k in r
  {
    if key in items && now > items[key].exp then items - {key} else items
  }

  /** The idempotency cache: scoped client key to stored response and expiry. */
  class IdempotencyStore<V> {
    var items: map<string, Entry<V>>

    constructor ()
      ensures items == map[]
    {
      items := map[];
    }

    /** Returns the stored value iff there is an entry and `now` is not after its expiry;
        an expired entry found on the way is removed. */
    method Get(tenant: string, key: string, now: int) returns (found: Option<V>)
      modifies this
      ensures found == Lookup(old(items), ScopedKey(tenant, key), now)
      ensures items == Purge(old(items), ScopedKey(tenant, key), now)
    {
      var k := tenant + ":" + key;
      if k !in items {
        return None;
      }
      var item := items[k];
      if now > item.exp {
        items := items - {k};
        return None;
      }
      return Some(item.value);
    }

    /** Unconditionally stores `value` with expiry now + ttl: the last writer wins. */
    method Set(tenant: string, key: string, value: V, ttl: int, now: int)
      modifies this
      ensures items == old(items)[ScopedKey(tenant, key) := Entry(value, now + ttl)]
    {
      var k := tenant + ":" + key;
      items := items[k := Entry(value, now + ttl)];
    }
  }

  /** A Get after a Set of the same tenant and key, before expiry, returns exactly the stored value;
      after expiry it finds nothing. */
  lemma GetAfterSet<V>(items: map<string, Entry<V>>, key: string, v: V, now: int, ttl: int, later: int)
    ensures Lookup(items[key := Entry(v, now + ttl)], key, later)
            == if later <= now + ttl then Some(v) else None
  {
  }

  /** A Get never changes what a later Get of any key finds at the same or a later time. */
  lemma PurgeKeepsLookups<V>(items: map<string, Entry<V>>, key: string, now: int, k: string, later: int)
    requires now <= later
    ensures Lookup(Purge(items, key, now), k, later) == Lookup(items, k, later)
  {
  }
}
