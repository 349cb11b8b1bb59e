/**
 * `JamendoAPICache`: stored API responses keyed by cache key, each with an
 * expiry instant. Time is an abstract clock reading (an integer) passed in
 * by the caller in place of `timezone.now()`.
 */
module ApiCache {
  import opened Wrappers
  import opened Json

  datatype Entry = Entry(data: Json, createdAt: int, expiresAt: int)

  /** The table, at most one row per key (`cache_key` is unique). */
  type Cache = map<string, Entry>

  /** `expires_in_seconds` when the caller gives none. */
  const DefaultTtl: int := 3600

  /** `is_expired`: strictly after the expiry instant, so an entry is still valid at it. */
  predicate IsExpired(e: Entry, now: int)
  {
    now > e.expiresAt
  }

  /**
   * `get_cached_response`: the stored data while the entry is valid; an
   * expired entry is deleted and reads as `None`.
   */
  function Get(c: Cache, key: string, now: int): (r: (Option<Json>, Cache))
    ensures r.0.Some? <==> key in c && now <= c[key].expiresAt
    ensures r.0.Some? ==> r.0.value == c[key].data
    ensures key in c && IsExpired(c[key], now) ==> r.1 == c - {key} && key !in r.1
    ensures !(key in c && IsExpired(c[key], now)) ==> r.1 == c
  {
    if key !in c then (None, c)
    else if !IsExpired(c[key], now) then (Some(c[key].data), c)
    else (None, c - {key})
  }

  /**
   * `set_cached_response`: `update_or_create` with the new data and an
   * expiry `ttl` after now. An existing row keeps its creation time.
   */
  function Set(c: Cache, key: string, data: Json, now: int, ttl: int): (r: Cache)
    ensures key in r && r[key].data == data && r[key].expiresAt == now + ttl
    ensures r[key].createdAt == if key in c then c[key].createdAt else now
    ensures r.Keys == c.Keys + {key}
    ensures forall k :: k in c && k != key ==> r[k] == c[k]
  {
    var created := if key in c then c[key].createdAt else now;
    c[key := Entry(data, created, now + ttl)]
  }

  /** A value set with a time-to-live reads back exactly until the expiry instant. */
  lemma GetAfterSet(c: Cache, key: string, data: Json, now: int, ttl: int, later: int)
    ensures Get(Set(c, key, data, now, ttl), key, later).0 ==
      if later <= now + ttl then Some(data) else None
  {
  }

  /** Reading any other key is unaffected by a write. */
  lemma GetOtherAfterSet(c: Cache, key: string, other: string, data: Json, now: int, ttl: int, later: int)
    requires other != key
    ensures Get(Set(c, key, data, now, ttl), other, later).0 == Get(c, other, later).0
  {
  }

  /** Once a read has found an entry expired, later reads find nothing until the next write. */
  lemma ExpiredStaysGone(c: Cache, key: string, now: int, later: int)
    requires key in c && IsExpired(c[key], now)
    ensures Get(Get(c, key, now).1, key, later) == (None, Get(c, key, now).1)
  {
  }
}
