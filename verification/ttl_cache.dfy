/** The in-memory cache both deployments keep: a map from key to a value
    with an absolute expiry time, evicted lazily when a read finds it stale.
    The clock reading (`Date.now()`) is an explicit parameter. */
module TtlCache {
  import opened Wrappers

  datatype Entry<V> = Entry(value: V, expires: int)

  type Cache<V> = map<string, Entry<V>>

  /** What a read returns: the value found, and the cache after the read
      (which may have dropped a stale entry). */
  datatype Lookup<V> = Lookup(found: Option<V>, cache: Cache<V>)

  /** Time-to-live of each endpoint's results, in milliseconds. */
  const GEO_NEAREST_TTL: nat := 7 * 24 * 60 * 60 * 1000
  const AUTOSUGGEST_TTL: nat := 24 * 60 * 60 * 1000
  const FLIGHTS_TTL: nat := 6 * 60 * 60 * 1000

  /** The entry under `key` is present and not yet expired at `now`. The
      comparison is strict on the stale side: at `now == expires` the entry
      is still served. */
  predicate Live<V>(c: Cache<V>, key: string, now: int) {
    key in c && now <= c[key].expires
  }

  /** `cacheGet`: the value when live; otherwise absent, with a stale entry
      removed. No other key is touched. */
  function Get<V>(c: Cache<V>, key: string, now: int): (r: Lookup<V>)
    ensures r.found.Some? <==> Live(c, key, now)
    ensures r.found.Some? ==> r.found.value == c[key].value && r.cache == c
    ensures r.found.None? ==> r.cache == c - {key}
    ensures key !in c ==> r.cache == c
  {
    if key !in c then Lookup(None, c)
    else if now > c[key].expires then Lookup(None, c - {key})
    else Lookup(Some(c[key].value), c)
  }

  /** `cacheSet`: the entry for `key` is replaced by one expiring `ttl`
      milliseconds after `now`; every other key keeps its entry. */
  function Set<V>(c: Cache<V>, key: string, value: V, ttl: nat, now: int): (r: Cache<V>)
    ensures key in r && r[key] == Entry(value, now + ttl)
    ensures r - {key} == c - {key}
    ensures r.Keys == c.Keys + {key}
  {
    c[key := Entry(value, now + ttl)]
  }

  /** A value written at `now` is read back unchanged, without disturbing
      the cache, at every time up to and including `now + ttl`. */
  lemma SetThenGet<V>(c: Cache<V>, key: string, value: V, ttl: nat, now: int, later: int)
    requires later <= now + ttl
    ensures Get(Set(c, key, value, ttl, now), key, later) == Lookup(Some(value), Set(c, key, value, ttl, now))
  {
  }

  /** After its time-to-live has passed, the value is gone and the read
      removes it, leaving the cache as it was before the write apart from
      that key. */
  lemma SetThenGetExpired<V>(c: Cache<V>, key: string, value: V, ttl: nat, now: int, later: int)
    requires later > now + ttl
    ensures Get(Set(c, key, value, ttl, now), key, later).found == None
    ensures Get(Set(c, key, value, ttl, now), key, later).cache == c - {key}
  {
  }

  /** Exactly at the expiry instant the entry is still returned. */
  lemma ExpiryIsInclusive<V>(c: Cache<V>, key: string)
    requires key in c
    ensures Get(c, key, c[key].expires).found == Some(c[key].value)
    ensures Get(c, key, c[key].expires + 1).found == None
  {
  }

  /** Writing one key does not change what a read of another key sees. */
  lemma SetIsolated<V>(c: Cache<V>, key: string, value: V, ttl: nat, now: int, other: string, later: int)
    requires other != key
    ensures Get(Set(c, key, value, ttl, now), other, later).found == Get(c, other, later).found
  {
  }

  /** A second read at the same instant sees exactly what the first saw and
      changes nothing further. */
  lemma GetIdempotent<V>(c: Cache<V>, key: string, now: int)
    ensures Get(Get(c, key, now).cache, key, now) == Get(c, key, now)
  {
  }

  /** Results of a nearest-airport lookup outlive autosuggest results, which
      outlive flight prices. */
  lemma TtlOrdering()
    ensures GEO_NEAREST_TTL == 604800000
    ensures AUTOSUGGEST_TTL == 86400000
    ensures FLIGHTS_TTL == 21600000
    ensures GEO_NEAREST_TTL > AUTOSUGGEST_TTL > FLIGHTS_TTL
  {
  }
}
