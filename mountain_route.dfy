/**
 * `GET /api/mountain?slug=…`: the slug picks an adapter, whose result is
 * cached for fifteen minutes under a key derived from the slug.
 */
module MountainRoute {
  import opened Wrappers
  import opened MountainTypes
  import Stratton
  import VailResorts
  import Cache
  import Weather

  /** Fifteen minutes, in seconds. */
  const CacheTtl: int := 15 * 60

  const DefaultSlug: string := "mount-snow"

  datatype Adapter = Vail(resortId: string) | StrattonAdapter

  /** What each adapter would read upstream during this request. */
  datatype Upstream = Upstream(okemo: VailResorts.Sources, mountSnow: VailResorts.Sources, stratton: Stratton.Sources)

  datatype Response = Ok(data: MountainData) | ServerError(status: nat, error: string)

  /** `searchParams.get('slug') || 'mount-snow'`: a missing or empty slug is the default. */
  function SlugOf(param: Option<string>): (slug: string)
    ensures param.Some? && param.value != "" ==> slug == param.value
    ensures param.None? || param.value == "" ==> slug == DefaultSlug
  {
    if param.Some? && param.value != "" then param.value else DefaultSlug
  }

  function CacheKey(slug: string): string {
    "mountain_data_" + slug
  }

  /** The `switch`: `okemo` and `stratton` have their own adapters; every other slug gets Mount Snow's. */
  function AdapterFor(slug: string): (a: Adapter)
    ensures a == StrattonAdapter <==> slug == "stratton"
    ensures a == Vail("okemo") <==> slug == "okemo"
    ensures a == Vail("mount-snow") <==> slug != "okemo" && slug != "stratton"
  {
    match slug
    case "okemo" => Vail("okemo")
    case "stratton" => StrattonAdapter
    case _ => Vail("mount-snow")
  }

  /** The producer handed to the cache. */
  function Fetch(a: Adapter, up: Upstream, now: string): Result<MountainData> {
    match a
    case StrattonAdapter => Stratton.StrattonData(up.stratton, now)
    case Vail(id) => VailResorts.VailResortData(id, if id == "okemo" then up.okemo else up.mountSnow, now)
  }

  /** Any failure becomes a 500 with a fixed message; the cause is only logged. */
  function Respond(r: Result<MountainData>): (resp: Response)
    ensures r.Success? <==> resp.Ok?
    ensures r.Success? ==> resp.data == r.value
    ensures r.Failure? ==> resp == ServerError(500, "Failed to fetch mountain data")
  {
    match r
    case Success(data) => Ok(data)
    case Failure(_) => ServerError(500, "Failed to fetch mountain data")
  }

  /**
   * One request: the slug's key is looked up with the fifteen-minute TTL and
   * the slug's adapter as producer; the cache changes as `Lookup` says.
   */
  method Get(cache: Cache.TwoTierCache<MountainData>, param: Option<string>, nowMs: int, nowIso: string,
             io: Cache.FileAccess, up: Upstream)
    returns (resp: Response)
    modifies cache
    ensures var slug := SlugOf(param);
      var o := Cache.Lookup(old(cache.State()), CacheKey(slug), CacheTtl, nowMs, io,
                            () => Fetch(AdapterFor(slug), up, nowIso));
      && cache.State() == o.tiers && resp == Respond(o.result)
      && cache.fetchCalls == old(cache.fetchCalls) + (if o.fetched then 1 else 0)
  {
    var slug := SlugOf(param);
    var cacheKey := CacheKey(slug);
    var adapter := AdapterFor(slug);
    var data := cache.GetCachedData(cacheKey, CacheTtl, nowMs, io, () => Fetch(adapter, up, nowIso));
    resp := Respond(data);
  }

  // ---- what the route promises ----

  /**
   * Every slug reaches a configured Vail resort or Stratton, so a Vail fetch
   * fails only when the forecast or one of the two pages cannot be fetched.
   */
  lemma NoUnknownResort(slug: string, up: Upstream, now: string)
    ensures AdapterFor(slug).Vail? ==> VailResorts.Config(AdapterFor(slug).resortId).Some?
    ensures AdapterFor(slug).Vail? ==>
      var src := if slug == "okemo" then up.okemo else up.mountSnow;
      (Fetch(AdapterFor(slug), up, now).Failure? <==>
         Weather.GetWeatherData(src.weather, now).Failure? || src.weatherPage.FetchFailed? || src.liftPage.FetchFailed?)
  {
  }

  /** Distinct slugs are cached under distinct keys, even slugs that share an adapter. */
  lemma CacheKeyInjective(s1: string, s2: string)
    requires CacheKey(s1) == CacheKey(s2)
    ensures s1 == s2
  {
    assert s1 == CacheKey(s1)[14..];
    assert s2 == CacheKey(s2)[14..];
  }

  /** The unknown slug `killington` gets Mount Snow's data, cached under its own key. */
  lemma UnknownSlugServesMountSnow(up: Upstream, now: string)
    ensures AdapterFor(SlugOf(Some("killington"))) == Vail("mount-snow")
    ensures CacheKey(SlugOf(Some("killington"))) != CacheKey(DefaultSlug)
  {
    assert CacheKey("killington")[14] != CacheKey(DefaultSlug)[14];
  }
}
