/** The two response caches of redis_service.py: an API-plan cache and a
    query-response cache, both keyed by a hash of the normalised query text and
    kept in one expiring key/value store (the Redis server). */
module RedisCache {
  import opened PyText
  import opened PyJson

  const PLAN_PREFIX: string := "api_plan"
  const RESPONSE_PREFIX: string := "query_response"
  /** Default time-to-live of a cached plan, in seconds. */
  const PLAN_TTL: int := 3600
  /** Default time-to-live of a cached response, in seconds. */
  const RESPONSE_TTL: int := 1800

  /** `' '.join(query.lower().split())`. */
  function NormalizeQuery(q: string): string {
    Join(Split(ToLower(q)))
  }

  /** `f"{prefix}:{md5(normalized).hexdigest()}"`; the digest is a parameter. */
  function CacheKey(prefix: string, q: string, md5: string -> string): string {
    prefix + ":" + md5(NormalizeQuery(q))
  }

  /** A stored value and the instant (in seconds) at which Redis drops it. */
  datatype Entry = Entry(value: Json, expiresAt: int)

  type Store = map<string, Entry>

  /** What `GET key` answers at time `now`. The stored text is `json.dumps` of a
      value and is never empty, so a live entry always reads back. */
  function Fetch(store: Store, key: string, now: int): Option<Json> {
    if key in store && now < store[key].expiresAt then Some(store[key].value) else None
  }

  /** The store after `SETEX key ttl value` at time `now`. */
  function Stored(store: Store, key: string, value: Json, ttl: int, now: int): Store {
    store[key := Entry(value, now + ttl)]
  }

  /** The Redis server: shared by every `RedisService`, which the routes build
      afresh for each request. */
  class RedisStore {
    var entries: Store

    constructor(entries: Store)
      ensures this.entries == entries
    {
      this.entries := entries;
    }
  }

  class RedisService {
    /** False when building the client raised; every operation is then a no-op. */
    const enabled: bool
    const client: RedisStore
    const md5: string -> string

    constructor(enabled: bool, client: RedisStore, md5: string -> string)
      ensures this.enabled == enabled && this.client == client && this.md5 == md5
    {
      this.enabled := enabled;
      this.client := client;
      this.md5 := md5;
    }

    /** `get_api_plan`: `down` says whether the call to the server raises. */
    method GetApiPlan(q: string, now: int, down: bool) returns (r: Option<Json>)
      ensures !enabled || down ==> r == None
      ensures enabled && !down ==> r == Fetch(client.entries, CacheKey(PLAN_PREFIX, q, md5), now)
    {
      r := Read(PLAN_PREFIX, q, now, down);
    }

    /** `get_query_response`. */
    method GetQueryResponse(q: string, now: int, down: bool) returns (r: Option<Json>)
      ensures !enabled || down ==> r == None
      ensures enabled && !down ==> r == Fetch(client.entries, CacheKey(RESPONSE_PREFIX, q, md5), now)
    {
      r := Read(RESPONSE_PREFIX, q, now, down);
    }

    /** `set_api_plan`; a non-positive expiry is refused by the server. */
    method SetApiPlan(q: string, plan: Json, ttl: int, now: int, down: bool) returns (ok: bool)
      modifies client
      ensures ok <==> enabled && !down && ttl > 0
      ensures client.entries ==
        if ok then Stored(old(client.entries), CacheKey(PLAN_PREFIX, q, md5), plan, ttl, now)
        else old(client.entries)
    {
      ok := Write(PLAN_PREFIX, q, plan, ttl, now, down);
    }

    /** `set_query_response`. */
    method SetQueryResponse(q: string, response: Json, ttl: int, now: int, down: bool) returns (ok: bool)
      modifies client
      ensures ok <==> enabled && !down && ttl > 0
      ensures client.entries ==
        if ok then Stored(old(client.entries), CacheKey(RESPONSE_PREFIX, q, md5), response, ttl, now)
        else old(client.entries)
    {
      ok := Write(RESPONSE_PREFIX, q, response, ttl, now, down);
    }

    method Read(prefix: string, q: string, now: int, down: bool) returns (r: Option<Json>)
      ensures !enabled || down ==> r == None
      ensures enabled && !down ==> r == Fetch(client.entries, CacheKey(prefix, q, md5), now)
    {
      if !enabled {
        return None;
      }
      if down {
        return None;
      }
      var key := CacheKey(prefix, q, md5);
      if key in client.entries && now < client.entries[key].expiresAt {
        r := Some(client.entries[key].value);
      } else {
        r := None;
      }
    }

    method Write(prefix: string, q: string, value: Json, ttl: int, now: int, down: bool) returns (ok: bool)
      modifies client
      ensures ok <==> enabled && !down && ttl > 0
      ensures client.entries ==
        if ok then Stored(old(client.entries), CacheKey(prefix, q, md5), value, ttl, now)
        else old(client.entries)
    {
      if !enabled {
        return false;
      }
      if down || ttl <= 0 {
        return false;
      }
      var key := CacheKey(prefix, q, md5);
      client.entries := client.entries[key := Entry(value, now + ttl)];
      ok := true;
    }
  }

  /** A response cached for one query is read back, before it expires, for any
      query with the same normalisation, and is gone once it has expired. */
  method ResponseRoundTrip(svc: RedisService, q: string, q': string, d: Json, now: int, later: int)
    returns (r: Option<Json>)
    requires svc.enabled && NormalizeQuery(q') == NormalizeQuery(q) && now <= later
    modifies svc.client
    ensures later < now + RESPONSE_TTL ==> r == Some(d)
    ensures later >= now + RESPONSE_TTL ==> r == None
  {
    var ok := svc.SetQueryResponse(q, d, RESPONSE_TTL, now, false);
    r := svc.GetQueryResponse(q', later, false);
  }

  // ---------------------------------------------------------------------------
  // Properties of the cache key

  /** Plan keys and response keys never coincide, whatever the queries and digest. */
  lemma PlanAndResponseKeysDiffer(q1: string, q2: string, md5: string -> string)
    ensures CacheKey(PLAN_PREFIX, q1, md5) != CacheKey(RESPONSE_PREFIX, q2, md5)
  {
    assert CacheKey(PLAN_PREFIX, q1, md5)[0] == 'a';
    assert CacheKey(RESPONSE_PREFIX, q2, md5)[0] == 'q';
  }

  /** Changing the letter case of one character does not change the key. */
  lemma CacheKeyIgnoresCase(prefix: string, q: string, i: nat, c: char, md5: string -> string)
    requires i < |q| && LowerChar(c) == LowerChar(q[i])
    ensures CacheKey(prefix, q[i := c], md5) == CacheKey(prefix, q, md5)
  {
    assert ToLower(q[i := c]) == ToLower(q);
  }

  /** Replacing one run of whitespace by another, or adding or removing
      whitespace at either end, does not change the key. */
  lemma CacheKeyIgnoresSpacing(prefix: string, a: string, w1: string, w2: string, b: string, md5: string -> string)
    requires AllSpace(w1) && AllSpace(w2)
    requires (w1 != [] && w2 != []) || a == [] || b == []
    ensures CacheKey(prefix, a + w1 + b, md5) == CacheKey(prefix, a + w2 + b, md5)
  {
    SpacingInvariant(a, w1, b);
    SpacingInvariant(a, w2, b);
  }

  lemma SpacingInvariant(a: string, w: string, b: string)
    requires AllSpace(w)
    requires w != [] || a == [] || b == []
    ensures Split(ToLower(a + w + b)) == Split(ToLower(a)) + Split(ToLower(b))
  {
    var la, lw, lb := ToLower(a), ToLower(w), ToLower(b);
    ToLowerConcat(a + w, b);
    ToLowerConcat(a, w);
    assert AllSpace(lw);
    SplitAroundSpaces(la, lw, lb);
  }

  /** Whitespace between two pieces of text only separates their words. */
  lemma SplitAroundSpaces(a: string, w: string, b: string)
    requires AllSpace(w)
    requires w != [] || a == [] || b == []
    ensures Split(a + w + b) == Split(a) + Split(b)
  {
    SplitAllSpace(w);
    SplitAppend(a, w);
    if w == [] {
      assert a + w == a;
      SplitAppend(a, b);
    } else {
      SplitAppend(a + w, b);
    }
  }

  /** Normalising twice is normalising once. */
  lemma NormalizeIdempotent(q: string)
    ensures NormalizeQuery(NormalizeQuery(q)) == NormalizeQuery(q)
  {
    var words := Split(ToLower(q));
    SplitWords(ToLower(q));
    forall w | w in words ensures Lowered(w) {
      forall i | 0 <= i < |w| ensures LowerChar(w[i]) == w[i] {
        assert w[i] in w;
        var j :| 0 <= j < |ToLower(q)| && ToLower(q)[j] == w[i];
      }
    }
    JoinLowered(words);
    var n := Join(words);
    assert ToLower(n) == n;
    SplitJoin(words);
  }

  /** A normalised query has no leading, trailing or doubled spaces and no other
      whitespace. */
  lemma NormalizedIsSingleSpaced(q: string)
    ensures SingleSpaced(NormalizeQuery(q))
  {
    SplitWords(ToLower(q));
    JoinSingleSpaced(Split(ToLower(q)));
  }
}
