/**
 * The two network-facing lookups of the recommender and the caches in front
 * of them: `_geocode` (a text search first, then the geocoding endpoint with
 * up to three attempts) and `_search_pois` (the nearby search). The replies
 * of the map service are parameters.
 */
module Resolver {
  import opened Common
  import opened Cache
  import opened Venues
  import opened Geocoding

  // ----- the geocoding endpoint and its retries -----

  /** What one request to the geocoding endpoint yields. */
  datatype GeoReply =
    | GeoHttpError                                           // status other than 200
    | GeoFailed                                              // an exception while asking or reading
    | GeoAnswer(info: string, status: string, geocodes: seq<Geo>)

  const MAX_RETRIES: nat := 3

  /** A reply after which `_geocode` tries again (unless it was the last attempt). */
  predicate Retryable(r: GeoReply) {
    r.GeoHttpError? || r.GeoFailed? || r.info == LIMIT_EXCEEDED
  }

  /** A reply that ends the loop with a result. */
  predicate Accepted(r: GeoReply) {
    r.GeoAnswer? && r.info != LIMIT_EXCEEDED && r.status == "1" && r.geocodes != []
  }

  /**
   * The outcome of the retry loop from `attempt` on, where `reply(k)` is the
   * reply to attempt `k`: a retryable reply moves on, any other reply decides.
   */
  function Attempts(reply: nat -> GeoReply, attempt: nat): Option<Geo>
    decreases MAX_RETRIES - attempt
  {
    if attempt >= MAX_RETRIES then None
    else if Retryable(reply(attempt)) then Attempts(reply, attempt + 1)
    else if Accepted(reply(attempt)) then Some(reply(attempt).geocodes[0])
    else None
  }

  /** Retryable replies before attempt `k` only postpone the decision to attempt `k`. */
  lemma {:induction false} AttemptsSkipRetries(reply: nat -> GeoReply, k: nat)
    requires k <= MAX_RETRIES
    requires forall j :: 0 <= j < k ==> Retryable(reply(j))
    ensures Attempts(reply, 0) == Attempts(reply, k)
    decreases k
  {
    if k > 0 {
      AttemptsSkipRetries(reply, k - 1);
    }
  }

  /** Three retryable replies in a row give up; a non-retryable one decides at once. */
  lemma AttemptsDecided(reply: nat -> GeoReply, k: nat)
    requires k <= MAX_RETRIES
    requires forall j :: 0 <= j < k ==> Retryable(reply(j))
    ensures k == MAX_RETRIES ==> Attempts(reply, 0).None?
    ensures k < MAX_RETRIES && Accepted(reply(k)) ==> Attempts(reply, 0) == Some(reply(k).geocodes[0])
    ensures k < MAX_RETRIES && !Retryable(reply(k)) && !Accepted(reply(k)) ==> Attempts(reply, 0).None?
  {
    AttemptsSkipRetries(reply, k);
  }

  /** A result is always the first geocode of an accepted reply within the three attempts. */
  lemma {:induction false} AttemptsSound(reply: nat -> GeoReply, attempt: nat)
    requires Attempts(reply, attempt).Some?
    ensures exists k :: (attempt <= k < MAX_RETRIES && Accepted(reply(k)) &&
                         Attempts(reply, attempt).value == reply(k).geocodes[0])
    decreases MAX_RETRIES - attempt
  {
    if Retryable(reply(attempt)) {
      AttemptsSound(reply, attempt + 1);
    } else {
      assert Accepted(reply(attempt));
    }
  }

  /** The retry loop of `_geocode`: up to three requests to the geocoding endpoint. */
  method RequestGeocode(reply: nat -> GeoReply) returns (r: Option<Geo>)
    ensures r == Attempts(reply, 0)
  {
    for attempt := 0 to MAX_RETRIES
      invariant Attempts(reply, 0) == Attempts(reply, attempt)
    {
      var answer := reply(attempt);
      if answer.GeoHttpError? || answer.GeoFailed? {
        if attempt == MAX_RETRIES - 1 {
          return None;
        }
        continue;
      }
      if answer.info == LIMIT_EXCEEDED {
        if attempt == MAX_RETRIES - 1 {
          return None;
        }
        continue;
      }
      if answer.status != "1" || answer.geocodes == [] {
        return None;
      }
      return Some(answer.geocodes[0]);
    }
    return None;
  }

  // ----- `_geocode` -----

  /**
   * The network part of `_geocode`: the text search's answer when it has a
   * location, else the geocoding endpoint's.
   */
  function Fetch(address: string, poiReply: PoiReply, reply: nat -> GeoReply): Option<Geo> {
    var poi := GeocodeViaPoi(address, "", poiReply);
    if poi.Some? && poi.value.location != [] then poi else Attempts(reply, 0)
  }

  /** The uncached path of `_geocode`: the text search, then the retry loop. */
  method FetchAddress(address: string, poiReply: PoiReply, reply: nat -> GeoReply) returns (r: Option<Geo>)
    ensures r == Fetch(address, poiReply, reply)
  {
    var poi := GeocodeViaPoi(address, "", poiReply);
    if poi.Some? && poi.value.location != [] {
      return poi;
    }
    r := RequestGeocode(reply);
  }

  /** `_geocode` as a function of the cached entries, whether a key is available and the replies. */
  function Resolve(cached: map<string, Geo>, address: string, hasKey: bool,
                   poiReply: PoiReply, reply: nat -> GeoReply): Option<Geo>
  {
    if address in cached then Some(cached[address])
    else if !hasKey then None
    else Fetch(address, poiReply, reply)
  }

  /**
   * A resolved address is either cached, or the best text-search hit with a
   * location, or the first geocode of an accepted reply.
   */
  lemma ResolveSources(cached: map<string, Geo>, address: string, hasKey: bool,
                       poiReply: PoiReply, reply: nat -> GeoReply)
    requires Resolve(cached, address, hasKey, poiReply, reply).Some?
    ensures var g := Resolve(cached, address, hasKey, poiReply, reply).value;
      (address in cached && g == cached[address]) ||
      (hasKey && Usable(poiReply) && g.location != [] && exists p :: p in poiReply.pois && g == FromPoi(p, address)) ||
      (hasKey && exists k :: 0 <= k < MAX_RETRIES && Accepted(reply(k)) && g == reply(k).geocodes[0])
  {
    if address !in cached && hasKey {
      var poi := GeocodeViaPoi(address, "", poiReply);
      if !(poi.Some? && poi.value.location != []) {
        AttemptsSound(reply, 0);
      }
    }
  }

  /** Once stored, an address is answered from the cache, whatever the service would reply. */
  lemma ResolveRemembers(cached: map<string, Geo>, order: seq<string>, address: string, g: Geo,
                         hasKey: bool, poiReply: PoiReply, reply: nat -> GeoReply)
    ensures Resolve(EntriesAfterPut(cached, order, GEOCODE_CACHE_MAX, address, g), address, hasKey, poiReply, reply) == Some(g)
  {
  }

  // ----- `_search_pois` -----

  /** What one nearby-search request yields (a missing `pois` field reads as no hits). */
  datatype SearchReply =
    | SearchHttpError
    | SearchAnswer(status: string, pois: seq<Venue>)

  /** `f"{location}_{keywords}_{radius}_{types}"`: the page size is not part of the key. */
  function PoiCacheKey(location: string, keywords: string, radius: int, types: string): string {
    location + "_" + keywords + "_" + IntToDecimal(radius) + "_" + types
  }

  /** The hits a reply yields, `None` for a failure that is not cached. */
  function Searched(reply: SearchReply): (r: Option<seq<Venue>>)
    ensures r.Some? <==> reply.SearchAnswer? && reply.status == "1"
  {
    if reply.SearchAnswer? && reply.status == "1" then Some(reply.pois) else None
  }

  lemma {:induction false} DigitsOnly(n: nat)
    ensures forall k :: 0 <= k < |NatToDecimal(n)| ==> '0' <= NatToDecimal(n)[k] <= '9'
    decreases n
  {
    if n >= 10 {
      DigitsOnly(n / 10);
    }
  }

  lemma {:induction false} NatToDecimalInjective(m: nat, n: nat)
    requires NatToDecimal(m) == NatToDecimal(n)
    ensures m == n
    decreases m
  {
    if m >= 10 && n >= 10 {
      var dm, dn := NatToDecimal(m), NatToDecimal(n);
      assert dm[..|dm| - 1] == NatToDecimal(m / 10);
      assert dn[..|dn| - 1] == NatToDecimal(n / 10);
      NatToDecimalInjective(m / 10, n / 10);
      assert DigitChar(m % 10) == dm[|dm| - 1] == dn[|dn| - 1] == DigitChar(n % 10);
    }
  }

  /** `str` of an int never holds an underscore. */
  lemma IntToDecimalNoUnderscore(a: int)
    ensures '_' !in IntToDecimal(a)
  {
    DigitsOnly(if a < 0 then -a else a);
    if a < 0 {
      assert IntToDecimal(a)[1..] == NatToDecimal(-a);
    }
  }

  /** `str` of an int is one-to-one. */
  lemma IntToDecimalInjective(a: int, b: int)
    requires IntToDecimal(a) == IntToDecimal(b)
    ensures a == b
  {
    if a < 0 && b < 0 {
      var na: nat, nb: nat := -a, -b;
      assert IntToDecimal(a)[1..] == NatToDecimal(na);
      assert IntToDecimal(b)[1..] == NatToDecimal(nb);
      NatToDecimalInjective(na, nb);
    } else if a >= 0 && b >= 0 {
      NatToDecimalInjective(a, b);
    } else {
      LeadingMinus(a);
      LeadingMinus(b);
    }
  }

  lemma LeadingMinus(a: int)
    ensures IntToDecimal(a)[0] == '-' <==> a < 0
  {
    DigitsOnly(if a < 0 then -a else a);
  }

  /** In `a + [c] + b` with no `c` in `a`, the first `c` sits at `|a|`. */
  lemma FirstSeparator(a: string, b: string, c: char)
    requires c !in a
    ensures (a + [c] + b)[|a|] == c
    ensures forall i :: 0 <= i < |a| ==> (a + [c] + b)[i] != c
  {
    forall i | 0 <= i < |a|
      ensures (a + [c] + b)[i] != c
    {
      assert (a + [c] + b)[i] == a[i];
    }
  }

  /** Splitting at the first separator: a prefix free of it is determined. */
  lemma SplitAtSeparator(a: string, b: string, a': string, b': string, c: char)
    requires c !in a && c !in a'
    requires a + [c] + b == a' + [c] + b'
    ensures a == a' && b == b'
  {
    var s := a + [c] + b;
    FirstSeparator(a, b, c);
    FirstSeparator(a', b', c);
    assert |a| == |a'|;
    assert a == s[..|a|] && a' == s[..|a'|];
    assert b == s[|a| + 1..] && b' == (a' + [c] + b')[|a'| + 1..];
  }

  /**
   * Two searches share a cache entry only when their parameters agree, as long
   * as locations and keywords hold no underscore (the key's separator).
   */
  lemma PoiCacheKeyInjective(location: string, keywords: string, radius: int, types: string,
                             location': string, keywords': string, radius': int, types': string)
    requires '_' !in location && '_' !in keywords && '_' !in location' && '_' !in keywords'
    requires PoiCacheKey(location, keywords, radius, types) == PoiCacheKey(location', keywords', radius', types')
    ensures location == location' && keywords == keywords' && radius == radius' && types == types'
  {
    var r, r' := IntToDecimal(radius), IntToDecimal(radius');
    IntToDecimalNoUnderscore(radius);
    IntToDecimalNoUnderscore(radius');
    assert PoiCacheKey(location, keywords, radius, types) == location + ['_'] + (keywords + ['_'] + (r + ['_'] + types));
    assert PoiCacheKey(location', keywords', radius', types') == location' + ['_'] + (keywords' + ['_'] + (r' + ['_'] + types'));
    SplitAtSeparator(location, keywords + ['_'] + (r + ['_'] + types), location', keywords' + ['_'] + (r' + ['_'] + types'), '_');
    SplitAtSeparator(keywords, r + ['_'] + types, keywords', r' + ['_'] + types', '_');
    SplitAtSeparator(r, types, r', types', '_');
    IntToDecimalInjective(radius, radius');
  }

  /** `_search_pois` as a function of the cached entries and the reply. */
  function SearchResult(cached: map<string, seq<Venue>>, key: string, reply: SearchReply): seq<Venue> {
    if key in cached then cached[key]
    else match Searched(reply)
      case Some(pois) => pois
      case None => []
  }

  /** The recommender's address and nearby-search resolution, with its two caches. */
  class AddressResolver {
    /** `geocode_cache`: address to result. */
    const geocodeCache: FifoCache<string, Geo>
    /** `poi_cache`: search key to hits. */
    const poiCache: FifoCache<string, seq<Venue>>
    /** `api_key`, possibly empty until `_geocode` reads it from the configuration. */
    var apiKey: string

    ghost predicate Valid()
      reads this, geocodeCache, poiCache
    {
      && geocodeCache.Valid() && geocodeCache.capacity == GEOCODE_CACHE_MAX
      && poiCache.Valid() && poiCache.capacity == POI_CACHE_MAX
    }

    constructor (apiKey: string)
      ensures Valid() && fresh(geocodeCache) && fresh(poiCache) && this.apiKey == apiKey
      ensures geocodeCache.entries == map[] && poiCache.entries == map[]
    {
      this.apiKey := apiKey;
      geocodeCache := new FifoCache(GEOCODE_CACHE_MAX);
      poiCache := new FifoCache(POI_CACHE_MAX);
    }

    /**
     * `_geocode`. `configKey` is the key found in the configuration, if any;
     * `poiReply` answers the text search and `reply(k)` the `k`-th geocoding request.
     */
    method Geocode(address: string, configKey: Option<string>, poiReply: PoiReply, reply: nat -> GeoReply)
      returns (r: Option<Geo>)
      requires Valid()
      modifies this, geocodeCache
      ensures Valid()
      ensures r == Resolve(old(geocodeCache.entries), address, old(apiKey) != [] || configKey.Some?, poiReply, reply)
      ensures apiKey == if old(apiKey) == [] && configKey.Some? && address !in old(geocodeCache.entries)
                       then configKey.value else old(apiKey)
      ensures address in old(geocodeCache.entries) || r.None? ==> unchanged(geocodeCache)
      ensures address !in old(geocodeCache.entries) && r.Some? ==>
        geocodeCache.order == OrderAfterPut(old(geocodeCache.order), GEOCODE_CACHE_MAX, address)
      ensures address !in old(geocodeCache.entries) && r.Some? ==>
        geocodeCache.entries == EntriesAfterPut(old(geocodeCache.entries), old(geocodeCache.order),
                                                GEOCODE_CACHE_MAX, address, r.value)
    {
      var hit := geocodeCache.Get(address);
      if hit.Some? {
        return hit;
      }
      if apiKey == [] {
        if configKey.Some? {
          apiKey := configKey.value;
        } else {
          return None;
        }
      }
      r := FetchAddress(address, poiReply, reply);
      if r.Some? {
        geocodeCache.Put(address, r.value);
      }
    }

    /** `_search_pois`; failures return no hits and are not cached, empty hits are. */
    method SearchPois(location: string, keywords: string, radius: int, types: string, reply: SearchReply)
      returns (pois: seq<Venue>)
      requires Valid()
      modifies poiCache
      ensures Valid()
      ensures pois == SearchResult(old(poiCache.entries), PoiCacheKey(location, keywords, radius, types), reply)
      ensures var key := PoiCacheKey(location, keywords, radius, types);
        key in old(poiCache.entries) || Searched(reply).None? ==> unchanged(poiCache)
      ensures var key := PoiCacheKey(location, keywords, radius, types);
        key !in old(poiCache.entries) && Searched(reply).Some? ==>
          poiCache.order == OrderAfterPut(old(poiCache.order), POI_CACHE_MAX, key)
      ensures var key := PoiCacheKey(location, keywords, radius, types);
        key !in old(poiCache.entries) && Searched(reply).Some? ==>
          poiCache.entries == EntriesAfterPut(old(poiCache.entries), old(poiCache.order), POI_CACHE_MAX, key, pois)
    {
      var key := PoiCacheKey(location, keywords, radius, types);
      var hit := poiCache.Get(key);
      if hit.Some? {
        return hit.value;
      }
      if reply.SearchHttpError? {
        return [];
      }
      if reply.status != "1" {
        return [];
      }
      pois := reply.pois;
      poiCache.Put(key, pois);
    }
  }
}
