/**
 * The Jamendo proxy views: the cache key of an upstream request, the
 * request helper with its response cache and per-track clean-up, the
 * configuration view, the track listing views with their parameter checks
 * and limit clamp, and the single-track view.
 *
 * The network is an oracle: each view receives the answer the Jamendo API
 * gives to the request it would send. The Django cache is a map from cache
 * keys to stored values, and MD5 is a function parameter.
 */
module JamendoViews {
  import opened Wrappers
  import opened Decimal
  import opened Json
  import opened ParamOrder
  import opened Text
  import opened Responses

  const ApiBase: string := "https://api.jamendo.com/v3.0"

  // ---------------------------------------------------------------------
  // Cache keys

  function DumpValue(v: Value): string
  {
    match v
    case Text(s) => Quote(s)
    case Number(n) => IntText(n)
  }

  /** `json.dumps` of one `(key, value)` tuple, which it writes as an array. */
  function DumpPair(p: Param): string
  {
    "[" + Quote(p.0) + ", " + DumpValue(p.1) + "]"
  }

  function DumpPairItems(ps: seq<Param>): string
  {
    if ps == [] then ""
    else if |ps| == 1 then DumpPair(ps[0])
    else DumpPair(ps[0]) + ", " + DumpPairItems(ps[1..])
  }

  /** `json.dumps(sorted(params.items()))`. */
  function DumpSorted(ps: seq<Param>): string
    requires DistinctKeys(ps)
  {
    "[" + DumpPairItems(Sort(ps)) + "]"
  }

  /** `get_cache_key(endpoint, params)`: the MD5 hex digest of the endpoint and the sorted pairs. */
  function CacheKey(endpoint: string, ps: seq<Param>, md5: string -> string): string
    requires DistinctKeys(ps)
  {
    md5(endpoint + "_" + DumpSorted(ps))
  }

  /** The key the request helper reads and writes in the Django cache. */
  function StoreKey(endpoint: string, ps: seq<Param>, md5: string -> string): string
    requires DistinctKeys(ps)
  {
    "jamendo_" + CacheKey(endpoint, ps, md5)
  }

  /** The key depends on the endpoint and the set of parameter pairs, not on their order. */
  lemma CacheKeyOrderFree(endpoint: string, ps: seq<Param>, qs: seq<Param>, md5: string -> string)
    requires DistinctKeys(ps) && DistinctKeys(qs)
    requires multiset(ps) == multiset(qs)
    ensures CacheKey(endpoint, ps, md5) == CacheKey(endpoint, qs, md5)
    ensures StoreKey(endpoint, ps, md5) == StoreKey(endpoint, qs, md5)
  {
    SortOrderFree(ps, qs);
  }

  // ---------------------------------------------------------------------
  // Upstream parameters

  /** A dictionary built from its pairs (distinct keys). */
  function ToMap(ps: seq<Param>): (m: map<string, Value>)
    requires DistinctKeys(ps)
    ensures m.Keys == set i | 0 <= i < |ps| :: ps[i].0
    ensures forall i :: 0 <= i < |ps| ==> m[ps[i].0] == ps[i].1
  {
    if ps == [] then map[]
    else
      var m := ToMap(ps[..|ps| - 1]);
      var last := ps[|ps| - 1];
      assert forall i :: 0 <= i < |ps| - 1 ==> ps[..|ps| - 1][i] == ps[i];
      m[last.0 := last.1]
  }

  /** `{'client_id': JAMENDO_CLIENT_ID, 'format': 'json', **params}`: the caller's pairs win. */
  function FinalParams(clientId: string, ps: seq<Param>): (m: map<string, Value>)
    requires DistinctKeys(ps)
    ensures m.Keys == ToMap(ps).Keys + {"client_id", "format"}
    ensures forall i :: 0 <= i < |ps| ==> m[ps[i].0] == ps[i].1
    ensures "client_id" !in ToMap(ps) ==> m["client_id"] == Text(clientId)
    ensures "format" !in ToMap(ps) ==> m["format"] == Text("json")
  {
    map["client_id" := Text(clientId), "format" := Text("json")] + ToMap(ps)
  }

  // ---------------------------------------------------------------------
  // Per-track clean-up

  /** `if not track.get(key): track[key] = value`. */
  function Default(t: map<string, Json>, key: string, value: Json): (r: map<string, Json>)
    requires Truthy(value)
    ensures r.Keys == t.Keys + {key}
    ensures forall k :: k in t && k != key ==> r[k] == t[k]
    ensures Get(r, key) == if Truthy(Get(t, key)) then Get(t, key) else value
    ensures Truthy(Get(t, key)) ==> r == t
  {
    if Truthy(Get(t, key)) then t else t[key := value]
  }

  /** `if not track.get('image') and track.get('album_image'): track['image'] = track['album_image']`. */
  function FillImage(t: map<string, Json>): (r: map<string, Json>)
    ensures t.Keys <= r.Keys <= t.Keys + {"image"}
    ensures forall k :: k in t && k != "image" ==> r[k] == t[k]
    ensures Get(r, "image") == if !Truthy(Get(t, "image")) && Truthy(Get(t, "album_image")) then Get(t, "album_image") else Get(t, "image")
    ensures Truthy(Get(t, "image")) || !Truthy(Get(t, "album_image")) ==> r == t
  {
    if !Truthy(Get(t, "image")) && Truthy(Get(t, "album_image")) then t["image" := t["album_image"]] else t
  }

  /** The keys the clean-up may fill in. */
  const Filled: set<string> := {"image", "duration", "artist_name", "album_name"}

  /** The four defaults the helper fills into each track of `results`. */
  function NormaliseTrack(t: map<string, Json>): (r: map<string, Json>)
    ensures t.Keys <= r.Keys <= t.Keys + Filled
    ensures forall k :: k in t && k !in Filled ==> r[k] == t[k]
    ensures Get(r, "image") == if !Truthy(Get(t, "image")) && Truthy(Get(t, "album_image")) then Get(t, "album_image") else Get(t, "image")
    ensures Get(r, "duration") == if Truthy(Get(t, "duration")) then Get(t, "duration") else Num(180)
    ensures Get(r, "artist_name") == if Truthy(Get(t, "artist_name")) then Get(t, "artist_name") else Str("Unknown Artist")
    ensures Get(r, "album_name") == if Truthy(Get(t, "album_name")) then Get(t, "album_name") else Str("Unknown Album")
  {
    var t1 := FillImage(t);
    var t2 := Default(t1, "duration", Num(180));
    var t3 := Default(t2, "artist_name", Str("Unknown Artist"));
    Default(t3, "album_name", Str("Unknown Album"))
  }

  /** After the clean-up a track has a duration, an artist and an album name, and an image when it had either image. */
  lemma NormaliseFills(t: map<string, Json>)
    ensures var r := NormaliseTrack(t);
      Truthy(Get(r, "duration")) && Truthy(Get(r, "artist_name")) && Truthy(Get(r, "album_name"))
      && (Truthy(Get(r, "image")) <==> Truthy(Get(t, "image")) || Truthy(Get(t, "album_image")))
  {
  }

  /** A track that already has the four fields is left as it is. */
  lemma NormaliseClean(t: map<string, Json>)
    requires Truthy(Get(t, "image")) || !Truthy(Get(t, "album_image"))
    requires Truthy(Get(t, "duration")) && Truthy(Get(t, "artist_name")) && Truthy(Get(t, "album_name"))
    ensures NormaliseTrack(t) == t
  {
  }

  /** Cleaning a track twice is the same as cleaning it once. */
  lemma NormaliseIdempotent(t: map<string, Json>)
    ensures NormaliseTrack(NormaliseTrack(t)) == NormaliseTrack(t)
  {
    var r := NormaliseTrack(t);
    assert Get(r, "album_image") == Get(t, "album_image");
    NormaliseClean(r);
  }

  /**
   * `for track in data['results']`: the loop runs over a list's items, a
   * dictionary's keys or a string's characters, and calls `.get` on each, so
   * only a list of objects, an empty dictionary or an empty string survive.
   */
  function NormaliseResults(results: Json): (r: Option<Json>)
    ensures r.Some? ==> r.value.Arr? == results.Arr?
    ensures r.Some? && results.Arr? ==> |r.value.items| == |results.items|
    ensures r.Some? && results.Arr? ==> forall i :: 0 <= i < |results.items| ==>
      results.items[i].Obj? && r.value.items[i] == Obj(NormaliseTrack(results.items[i].fields))
    ensures r.Some? && !results.Arr? ==> r.value == results
    ensures r.None? <==>
      !((results.Arr? && forall i :: 0 <= i < |results.items| ==> results.items[i].Obj?)
        || results == Obj(map[]) || results == Str(""))
  {
    if results.Arr? && forall i :: 0 <= i < |results.items| ==> results.items[i].Obj? then
      Some(Arr(seq(|results.items|, i requires 0 <= i < |results.items| =>
        Obj(NormaliseTrack(results.items[i].fields)))))
    else if results == Obj(map[]) || results == Str("") then Some(results)
    else None
  }

  // ---------------------------------------------------------------------
  // The request helper

  /** What the Jamendo API (or the network) does with one request. */
  datatype Upstream =
    | Reply(status: int, body: Body)
    /** `requests` raised: a timeout or another `RequestException`. */
    | Raised(message: string)

  /** A Django cache entry: the value and the instant (in seconds) at which it expires. */
  datatype Stored = Stored(data: Json, expires: int)

  type DjangoCache = map<string, Stored>

  datatype ApiOutcome =
    /** A truthy cached value, returned without a request. */
    | FromCache(data: Json)
    /** A 200 answer, cleaned, cached and returned. */
    | Fetched(data: Json)
    /** `None`: a non-200 status or an exception the helper catches. */
    | NoData
    /** An exception the helper does not catch; `stored` is what `cache.set` wrote before it. */
    | Crash(stored: Option<Json>)

  /**
   * Lines 64-86 on a parsed 200 body. `'results' in data` and `data.get`
   * assume a dictionary: a list or string body is cached and then fails at
   * `data.get`, unless `'results'` is found in it, which fails at once;
   * `in` on any other value fails at once.
   */
  function ProcessBody(data: Json): (r: ApiOutcome)
    ensures r.Fetched? || r.Crash?
    ensures r.Fetched? <==> data.Obj? && ("results" in data.fields ==> NormaliseResults(data.fields["results"]).Some?)
    ensures r.Fetched? ==> r.data.Obj? && r.data.fields.Keys == data.fields.Keys
    ensures r.Fetched? ==> forall k :: k in data.fields && k != "results" ==> r.data.fields[k] == data.fields[k]
    ensures r.Fetched? && "results" in data.fields ==>
      Some(r.data.fields["results"]) == NormaliseResults(data.fields["results"])
    ensures r.Crash? && r.stored.Some? ==> r.stored.value == data && (data.Arr? || data.Str?)
  {
    match data
    case Obj(fields) =>
      if "results" !in fields then Fetched(data)
      else
        (match NormaliseResults(fields["results"])
         case None => Crash(None)
         case Some(results) => Fetched(Obj(fields["results" := results])))
    case Arr(items) =>
      if Str("results") in items then Crash(None) else Crash(Some(data))
    case Str(s) =>
      if Contains(s, "results") then Crash(None) else Crash(Some(data))
    case _ => Crash(None)
  }

  /** `jamendo_api_request` after the cache lookup (`cached` is `cache.get(key)`). */
  function ApiRequest(cached: Option<Json>, upstream: Upstream): (r: ApiOutcome)
    ensures r.FromCache? <==> cached.Some? && Truthy(cached.value)
    ensures r.FromCache? ==> r.data == cached.value
    ensures r.Fetched? ==> upstream.Reply? && upstream.status == 200 && upstream.body.Parsed?
    ensures r.Fetched? ==> r == ProcessBody(upstream.body.json)
    ensures !(cached.Some? && Truthy(cached.value)) && upstream.Reply? && upstream.status != 200 ==> r == NoData
    ensures !(cached.Some? && Truthy(cached.value)) && upstream.Raised? ==> r == NoData
  {
    if cached.Some? && Truthy(cached.value) then FromCache(cached.value)
    else
      match upstream
      case Raised(_) => NoData
      case Reply(status, body) =>
        if status != 200 then NoData
        else
          match body
          // requests' JSONDecodeError is a RequestException, which the helper catches.
          case Unparsable(_) => NoData
          case Parsed(data) => ProcessBody(data)
  }

  /**
   * The cache after the helper ran at instant `now`: a fetched or
   * crash-stored body is written under the key, expiring `timeout` seconds
   * later (`cache.set(key, data, timeout)`).
   */
  function CacheAfter(cache: DjangoCache, key: string, outcome: ApiOutcome, now: int, timeout: int): (c: DjangoCache)
    ensures outcome.Fetched? ==> c == cache[key := Stored(outcome.data, now + timeout)]
    ensures outcome.Crash? && outcome.stored.Some? ==> c == cache[key := Stored(outcome.stored.value, now + timeout)]
    ensures outcome.FromCache? || outcome.NoData? || (outcome.Crash? && outcome.stored.None?) ==> c == cache
  {
    match outcome
    case Fetched(data) => cache[key := Stored(data, now + timeout)]
    case Crash(Some(data)) => cache[key := Stored(data, now + timeout)]
    case _ => cache
  }

  /**
   * `cache.get(key)` at instant `now`. With no cache configured Django uses
   * its in-memory cache, which treats an entry as expired once the clock
   * has reached its expiry instant.
   */
  function Lookup(cache: DjangoCache, key: string, now: int): (r: Option<Json>)
    ensures r.Some? <==> key in cache && now < cache[key].expires
    ensures r.Some? ==> r.value == cache[key].data
  {
    if key in cache && now < cache[key].expires then Some(cache[key].data) else None
  }

  /** `cache.get(key)` finds a truthy value, so the helper sends no request. */
  predicate Hit(cache: DjangoCache, key: string, now: int)
  {
    Lookup(cache, key, now).Some? && Truthy(Lookup(cache, key, now).value)
  }

  /** A body the helper fetched has every track cleaned already. */
  lemma FetchedIsClean(data: Json)
    requires ProcessBody(data).Fetched?
    ensures var out := ProcessBody(data).data;
      "results" in out.fields && out.fields["results"].Arr? ==>
        forall i :: 0 <= i < |out.fields["results"].items| ==>
          out.fields["results"].items[i].Obj?
          && NormaliseTrack(out.fields["results"].items[i].fields) == out.fields["results"].items[i].fields
  {
    var out := ProcessBody(data).data;
    if "results" in out.fields && out.fields["results"].Arr? {
      var items := data.fields["results"].items;
      forall i | 0 <= i < |out.fields["results"].items|
        ensures NormaliseTrack(out.fields["results"].items[i].fields) == out.fields["results"].items[i].fields
      {
        NormaliseIdempotent(items[i].fields);
      }
    }
  }

  // ---------------------------------------------------------------------
  // Views

  const NotConfigured: string := "Jamendo 未配置"
  const UpstreamError: string := "Jamendo API 錯誤"
  const MissingQuery: string := "缺少搜尋查詢"
  const MissingTag: string := "缺少標籤參數"
  const TrackNotFound: string := "找不到音軌"

  /** `get_jamendo_config`. */
  function Config(clientId: string): (r: Json)
    ensures r.Obj? && r.fields.Keys == {"client_id", "available", "api_base", "status"}
    ensures r.fields["available"] == Bool(clientId != "")
    ensures r.fields["status"] == Str(if clientId != "" then "configured" else "not_configured")
    ensures r.fields["client_id"] == Str(clientId) && r.fields["api_base"] == Str(ApiBase)
  {
    Obj(map[
      "client_id" := Str(clientId),
      "available" := Bool(clientId != ""),
      "api_base" := Str(ApiBase),
      "status" := Str(if clientId != "" then "configured" else "not_configured")])
  }

  /** `min(int(request.GET.get('limit', 20)), 200)`; `None` where `int()` raises. */
  function Limit(query: map<string, string>): (r: Option<int>)
    ensures "limit" !in query ==> r == Some(20)
    ensures "limit" in query ==> (r.None? <==> PyInt(query["limit"]).None?)
    ensures r.Some? ==> r.value <= 200
    ensures r.Some? && "limit" in query ==>
      r.value == if PyInt(query["limit"]).value < 200 then PyInt(query["limit"]).value else 200
  {
    if "limit" !in query then Some(20)
    else
      match PyInt(query["limit"])
      case None => None
      case Some(n) => Some(if n < 200 then n else 200)
  }

  /** The limit has no lower bound: a negative or zero limit is sent as given. */
  lemma LimitPassesSmallValues(query: map<string, string>, n: int)
    requires "limit" in query && query["limit"] == IntText(n)
    requires n <= 200
    ensures Limit(query) == Some(n)
  {
    PyIntShow(n, 0, 0);
    assert Spaces(0) + IntText(n) + Spaces(0) == IntText(n);
  }

  /** The four cached listing views. */
  datatype Listing = Search | ByTag | Popular | Latest

  /** The query argument a listing needs, if any (`q` or `tag`). */
  function Needed(kind: Listing): Option<string>
  {
    match kind
    case Search => Some("q")
    case ByTag => Some("tag")
    case _ => None
  }

  /** The parameters a listing asks the helper for. */
  function ListingParams(kind: Listing, arg: string, limit: int): (ps: seq<Param>)
    ensures DistinctKeys(ps)
  {
    match kind
    case Search => [("search", Text(arg)), ("include", Text("musicinfo")), ("audioformat", Text("mp32")), ("limit", Number(limit))]
    case ByTag => [("tags", Text(arg)), ("include", Text("musicinfo")), ("audioformat", Text("mp32")), ("limit", Number(limit))]
    case Popular => [("order", Text("popularity_total")), ("include", Text("musicinfo")), ("audioformat", Text("mp32")), ("limit", Number(limit))]
    case Latest => [("order", Text("releasedate_desc")), ("include", Text("musicinfo")), ("audioformat", Text("mp32")), ("limit", Number(limit))]
  }

  /** The cache timeout each listing passes (seconds). */
  function ListingTimeout(kind: Listing): int
  {
    match kind
    case Search => 3600
    case ByTag => 7200
    case Popular => 3600
    case Latest => 1800
  }

  function QueryGet(query: map<string, string>, k: string): string
  {
    if k in query then query[k] else ""
  }

  /** `request.GET.get('q', '')` or `request.GET.get('tag', '')`; "" for the listings that take none. */
  function ListingArg(kind: Listing, query: map<string, string>): string
  {
    if Needed(kind).Some? then QueryGet(query, Needed(kind).value) else ""
  }

  /** The cache key of a listing request. */
  function ListingKey(kind: Listing, query: map<string, string>, limit: int, md5: string -> string): string
  {
    StoreKey("tracks", ListingParams(kind, ListingArg(kind, query), limit), md5)
  }

  /** What the helper's outcome becomes in a listing view. */
  function Reply200(outcome: ApiOutcome): (r: Response)
    ensures (outcome.FromCache? || outcome.Fetched?) && Truthy(outcome.data) ==> r == JsonResponse(outcome.data, 200)
    ensures outcome.NoData? ==> r == Http(500, ErrorBody(UpstreamError))
    ensures outcome.Crash? ==> r == Exception
  {
    match outcome
    case Crash(_) => Exception
    case NoData => Http(500, ErrorBody(UpstreamError))
    case FromCache(data) => if Truthy(data) then JsonResponse(data, 200) else Http(500, ErrorBody(UpstreamError))
    case Fetched(data) => if Truthy(data) then JsonResponse(data, 200) else Http(500, ErrorBody(UpstreamError))
  }

  datatype Handled = Handled(response: Response, cache: DjangoCache)

  /**
   * The helper run under `key` at instant `now`, and what a listing view
   * answers with its outcome.
   */
  function Serve(cache: DjangoCache, key: string, upstream: Upstream, timeout: int, now: int): (h: Handled)
    // A live truthy entry is answered without a request, and the cache is left alone.
    ensures Hit(cache, key, now) ==> h == Handled(JsonResponse(Lookup(cache, key, now).value, 200), cache)
    // Otherwise a network error, another status or an unreadable body is a 500, and nothing is cached.
    ensures !Hit(cache, key, now) && (upstream.Raised? || upstream.status != 200 || upstream.body.Unparsable?) ==>
      h == Handled(Http(500, ErrorBody(UpstreamError)), cache)
    // A usable 200 body is cleaned, cached for `timeout` seconds and answered when truthy.
    ensures (!Hit(cache, key, now) && upstream.Reply? && upstream.status == 200 && upstream.body.Parsed?
             && ProcessBody(upstream.body.json).Fetched?) ==>
      var data := ProcessBody(upstream.body.json).data;
      h.cache == cache[key := Stored(data, now + timeout)]
      && h.response == (if Truthy(data) then Http(200, data) else Http(500, ErrorBody(UpstreamError)))
    // A body the clean-up cannot handle escapes the view.
    ensures (!Hit(cache, key, now) && upstream.Reply? && upstream.status == 200 && upstream.body.Parsed?
             && ProcessBody(upstream.body.json).Crash?) ==> h.response == Exception
  {
    var outcome := ApiRequest(Lookup(cache, key, now), upstream);
    Handled(Reply200(outcome), CacheAfter(cache, key, outcome, now, timeout))
  }

  /**
   * Once a key has been answered with 200, the entry stays until its expiry
   * instant (`timeout` seconds after a fetch) and, until then, serving the key
   * again repeats the answer whatever upstream would do. From that instant on
   * the entry is missed and upstream decides.
   */
  lemma ServeRepeats(cache: DjangoCache, key: string, first: Upstream, second: Upstream, timeout: int, now: int, later: int)
    requires Serve(cache, key, first, timeout, now).response.Http?
    requires Serve(cache, key, first, timeout, now).response.status == 200
    ensures var h := Serve(cache, key, first, timeout, now);
      key in h.cache
      && (!Hit(cache, key, now) ==> h.cache[key].expires == now + timeout)
      && (later < h.cache[key].expires ==> Serve(h.cache, key, second, timeout, later) == h)
      && (later >= h.cache[key].expires ==>
            Serve(h.cache, key, second, timeout, later).response == Reply200(ApiRequest(None, second)))
  {
    var outcome := ApiRequest(Lookup(cache, key, now), first);
    assert outcome.FromCache? || outcome.Fetched?;
    assert Truthy(outcome.data);
  }

  /**
   * `search_tracks`, `tracks_by_tag`, `popular_tracks`, `latest_tracks`: the
   * limit is parsed first, then the query argument is checked (400), then
   * the configuration (500), then the helper runs under the listing's key and
   * timeout.
   */
  function ListTracks(kind: Listing, query: map<string, string>, clientId: string,
                      cache: DjangoCache, md5: string -> string, upstream: Upstream, now: int): (h: Handled)
    ensures Limit(query).None? ==> h == Handled(Exception, cache)
    ensures Limit(query).Some? && Needed(kind).Some? && ListingArg(kind, query) == "" ==>
      h == Handled(Http(400, ErrorBody(if kind == Search then MissingQuery else MissingTag)), cache)
    ensures Limit(query).Some? && (Needed(kind).None? || ListingArg(kind, query) != "") && clientId == "" ==>
      h == Handled(Http(500, ErrorBody(NotConfigured)), cache)
    ensures Limit(query).Some? && (Needed(kind).None? || ListingArg(kind, query) != "") && clientId != "" ==>
      h == Serve(cache, ListingKey(kind, query, Limit(query).value, md5), upstream, ListingTimeout(kind), now)
    ensures h.response.Http? && h.response.status == 200 ==> clientId != "" && Limit(query).Some?
  {
    match Limit(query)
    case None => Handled(Exception, cache)
    case Some(limit) =>
      var arg := ListingArg(kind, query);
      if Needed(kind).Some? && arg == "" then
        Handled(Http(400, ErrorBody(if kind == Search then MissingQuery else MissingTag)), cache)
      else if clientId == "" then Handled(Http(500, ErrorBody(NotConfigured)), cache)
      else
        Serve(cache, ListingKey(kind, query, limit, md5), upstream, ListingTimeout(kind), now)
  }

  /**
   * Asking a listing again after a successful answer is served from the
   * cache, whatever upstream would do, until the entry expires: the
   * listing's timeout after a fetch. From then on upstream decides.
   */
  lemma ListingRepeatsFromCache(kind: Listing, query: map<string, string>, clientId: string,
                                cache: DjangoCache, md5: string -> string, first: Upstream, second: Upstream,
                                now: int, later: int)
    requires ListTracks(kind, query, clientId, cache, md5, first, now).response.Http?
    requires ListTracks(kind, query, clientId, cache, md5, first, now).response.status == 200
    ensures Limit(query).Some?
    ensures var h := ListTracks(kind, query, clientId, cache, md5, first, now);
      var key := ListingKey(kind, query, Limit(query).value, md5);
      key in h.cache
      && (!Hit(cache, key, now) ==> h.cache[key].expires == now + ListingTimeout(kind))
      && (later < h.cache[key].expires ==> ListTracks(kind, query, clientId, h.cache, md5, second, later) == h)
      && (later >= h.cache[key].expires ==>
            ListTracks(kind, query, clientId, h.cache, md5, second, later).response == Reply200(ApiRequest(None, second)))
  {
    var key := ListingKey(kind, query, Limit(query).value, md5);
    ServeRepeats(cache, key, first, second, ListingTimeout(kind), now, later);
  }

  /** The parameters of `random_tracks`' request. */
  function RandomParams(limit: int): (ps: seq<Param>)
    ensures DistinctKeys(ps)
  {
    [("order", Text("random")), ("include", Text("musicinfo")), ("audioformat", Text("mp32")), ("limit", Number(limit))]
  }

  /** `random_tracks`' request: the final parameters it sends, when it sends one. */
  function RandomRequest(query: map<string, string>, clientId: string): (r: Option<map<string, Value>>)
    ensures r.Some? <==> Limit(query).Some? && clientId != ""
    ensures r.Some? ==> {"order", "limit", "client_id", "format"} <= r.value.Keys
    ensures r.Some? && "order" in r.value && "limit" in r.value && "client_id" in r.value ==>
      r.value["order"] == Text("random") && r.value["client_id"] == Text(clientId)
      && r.value["limit"] == Number(Limit(query).value)
  {
    if Limit(query).Some? && clientId != "" then
      var ps := RandomParams(Limit(query).value);
      assert ps[0].0 == "order" && ps[3].0 == "limit";
      Some(FinalParams(clientId, ps))
    else None
  }

  /**
   * `random_tracks`: the cache is neither read nor written; every exception
   * raised after the limit and configuration checks, including the
   * `TypeError` of a non-dictionary body, is caught and reported with its text.
   */
  function RandomTracks(query: map<string, string>, clientId: string, upstream: Upstream): (r: Response)
    ensures Limit(query).None? ==> r == Exception
    ensures Limit(query).Some? && clientId == "" ==> r == Http(500, ErrorBody(NotConfigured))
    ensures Limit(query).Some? && clientId != "" && upstream.Raised? ==> r == Http(500, ErrorBody(upstream.message))
    ensures Limit(query).Some? && clientId != "" && upstream.Reply? && upstream.status != 200 ==>
      r == Http(500, ErrorBody(UpstreamError))
    ensures Limit(query).Some? && clientId != "" && upstream.Reply? && upstream.status == 200 ==>
      match upstream.body
      case Unparsable(message) => r == Http(500, ErrorBody(message))
      case Parsed(data) => r == if data.Obj? then Http(200, data) else Http(500, ErrorBody(RejectReason(data, 200).value))
    ensures r.Http? && r.status == 200 ==>
      upstream.Reply? && upstream.status == 200 && upstream.body.Parsed? && r.body == upstream.body.json
  {
    match Limit(query)
    case None => Exception
    case Some(_) =>
      if clientId == "" then Http(500, ErrorBody(NotConfigured))
      else
        match upstream
        case Raised(message) => Http(500, ErrorBody(message))
        case Reply(status, body) =>
          if status != 200 then Http(500, ErrorBody(UpstreamError))
          else
            match body
            case Unparsable(message) => Http(500, ErrorBody(message))
            case Parsed(data) =>
              if RejectReason(data, 200).None? then Http(200, data) else Http(500, ErrorBody(RejectReason(data, 200).value))
  }

  /** The detail parameters; the `<int:track_id>` route hands the view an integer. */
  function DetailParams(trackId: nat): (ps: seq<Param>)
    ensures DistinctKeys(ps)
    ensures |ps| == 3 && ps[0] == ("id", Number(trackId))
  {
    [("id", Number(trackId)), ("include", Text("musicinfo+stats+lyrics")), ("audioformat", Text("mp32"))]
  }

  /**
   * `if data and data.get('results'): JsonResponse(data['results'][0])`:
   * the first result of a list, 404 when there is none.
   */
  function FirstResult(data: Option<Json>): (r: Response)
    ensures data.None? || (data.Some? && !Truthy(data.value)) ==> r == Http(404, ErrorBody(TrackNotFound))
    ensures data.Some? && data.value.Obj? && !Truthy(Get(data.value.fields, "results")) ==>
      r == Http(404, ErrorBody(TrackNotFound))
    ensures r.Http? && r.status == 200 ==>
      data.Some? && data.value.Obj? && "results" in data.value.fields
      && data.value.fields["results"].Arr? && |data.value.fields["results"].items| > 0
      && r.body == data.value.fields["results"].items[0]
    ensures (data.Some? && data.value.Obj? && "results" in data.value.fields
      && data.value.fields["results"].Arr? && |data.value.fields["results"].items| > 0
      && data.value.fields["results"].items[0].Obj?) ==>
      r == Http(200, data.value.fields["results"].items[0])
  {
    if data.None? || !Truthy(data.value) then Http(404, ErrorBody(TrackNotFound))
    else if !data.value.Obj? then Exception
    else
      var results := Get(data.value.fields, "results");
      if !Truthy(results) then Http(404, ErrorBody(TrackNotFound))
      else if results.Arr? then JsonResponse(results.items[0], 200)
      // `[0]` of a string is a one-character string; of a dictionary or number it raises.
      else Exception
  }

  /** The cache key of a detail request, and its one-day timeout. */
  function DetailKey(trackId: nat, md5: string -> string): string
  {
    StoreKey("tracks", DetailParams(trackId), md5)
  }

  const DetailTimeout: int := 86400

  /** `get_track_detail`. */
  function TrackDetail(trackId: nat, clientId: string, cache: DjangoCache,
                       md5: string -> string, upstream: Upstream, now: int): (h: Handled)
    ensures clientId == "" ==> h == Handled(Http(500, ErrorBody(NotConfigured)), cache)
    ensures clientId != "" ==>
      var key := DetailKey(trackId, md5);
      var outcome := ApiRequest(Lookup(cache, key, now), upstream);
      h.cache == CacheAfter(cache, key, outcome, now, DetailTimeout)
      && (outcome.NoData? ==> h.response == Http(404, ErrorBody(TrackNotFound)))
      && (outcome.Crash? ==> h.response == Exception)
      && (outcome.FromCache? || outcome.Fetched? ==> h.response == FirstResult(Some(outcome.data)))
    // A live cached body answers without a request.
    ensures clientId != "" && Hit(cache, DetailKey(trackId, md5), now) ==>
      h == Handled(FirstResult(Lookup(cache, DetailKey(trackId, md5), now)), cache)
  {
    if clientId == "" then Handled(Http(500, ErrorBody(NotConfigured)), cache)
    else
      var key := DetailKey(trackId, md5);
      var outcome := ApiRequest(Lookup(cache, key, now), upstream);
      var response := match outcome
        case Crash(_) => Exception
        case NoData => FirstResult(None)
        case FromCache(data) => FirstResult(Some(data))
        case Fetched(data) => FirstResult(Some(data));
      Handled(response, CacheAfter(cache, key, outcome, now, DetailTimeout))
  }

  /**
   * A track found once is answered again from the cache, whatever upstream
   * would do, until its entry expires: a day after a fetch.
   */
  lemma DetailRepeatsFromCache(trackId: nat, clientId: string, cache: DjangoCache, md5: string -> string,
                               first: Upstream, second: Upstream, now: int, later: int)
    requires TrackDetail(trackId, clientId, cache, md5, first, now).response.Http?
    requires TrackDetail(trackId, clientId, cache, md5, first, now).response.status == 200
    ensures var h := TrackDetail(trackId, clientId, cache, md5, first, now);
      var key := DetailKey(trackId, md5);
      key in h.cache
      && (!Hit(cache, key, now) ==> h.cache[key].expires == now + DetailTimeout)
      && (later < h.cache[key].expires ==> TrackDetail(trackId, clientId, h.cache, md5, second, later) == h)
  {
    var key := DetailKey(trackId, md5);
    var outcome := ApiRequest(Lookup(cache, key, now), first);
    var h := TrackDetail(trackId, clientId, cache, md5, first, now);
    assert clientId != "";
    assert h.response == FirstResult(Some(outcome.data)) && Truthy(outcome.data) && h.cache == CacheAfter(cache, key, outcome, now, DetailTimeout);
    assert key in h.cache && h.cache[key].data == outcome.data;
    if later < h.cache[key].expires {
      assert Hit(h.cache, key, later) && Lookup(h.cache, key, later) == Some(outcome.data);
    }
  }
}
