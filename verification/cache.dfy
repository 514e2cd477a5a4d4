/** The process-wide cache of combined records and the `getCountries` refresh step.
    The clock value and the outcomes of the two upstream fetches are parameters;
    the cache is threaded through as an explicit state value. */
module Cache {
  import opened Wrappers
  import opened Data
  import opened Join

  /** How long a refreshed list is served without re-fetching: one hour, in milliseconds. */
  const ValidityMs: int := 3600000

  /** The cached list (`None` until the first successful refresh) and the clock value it was fetched at. */
  datatype CacheState = CacheState(countries: Option<seq<Country>>, timestamp: int)

  /** The state at process start. */
  const Initial: CacheState := CacheState(None, 0)

  /** The outcome of one upstream request. */
  datatype Fetch<+T> = Fetched(body: T) | FetchFailed

  /** The state after a call together with what the call answered. */
  datatype Reply<+T> = Reply(result: Result<T, Error>, cache: CacheState)

  /** The cache may be served at `now`: a list is present (an empty one counts) and
      less than an hour has passed since it was fetched. */
  function IsFresh(cache: CacheState, now: int): (b: bool)
    ensures cache.countries.None? ==> !b
    ensures cache.countries.Some? ==> (b <==> now < cache.timestamp + 3600 * 1000)
  {
    cache.countries.Some? && now - cache.timestamp < ValidityMs
  }

  /** The population list used for joining. A failed population request and a response
      without a `data` list both yield the empty list. */
  function PopulationList(pop: Fetch<Option<seq<PopRecord>>>): (r: seq<PopRecord>)
    ensures pop.FetchFailed? ==> r == []
    ensures pop.Fetched? && pop.body.None? ==> r == []
    ensures pop.Fetched? && pop.body.Some? ==> r == pop.body.value
  {
    match pop
    case FetchFailed => []
    case Fetched(body) =>
      match body
      case Some(list) => list
      case None => []
  }

  /** `getCountries`, called at clock value `now`. */
  function GetCountries(cache: CacheState, now: int, rest: Fetch<seq<RawCountry>>,
                        pop: Fetch<Option<seq<PopRecord>>>): (r: Reply<seq<Country>>)
    // cache hit: the cached list, the state untouched
    ensures IsFresh(cache, now) ==> r == Reply(Success(cache.countries.value), cache)
    // a failure never changes the state
    ensures r.result.Failure? ==> r.cache == cache
    // whatever is answered is what the cache now holds
    ensures r.result.Success? ==> r.cache.countries == Some(r.result.value)
    // a refresh replaces the whole state, stamped with the clock value read at entry
    ensures !IsFresh(cache, now) && r.result.Success? ==> r.cache == CacheState(Some(r.result.value), now)
    ensures !IsFresh(cache, now) && rest.FetchFailed? ==> r.result == Failure(UpstreamUnavailable)
    // with the country list in hand, the only way to fail is the join's TypeError
    ensures !IsFresh(cache, now) && rest.Fetched? && r.result.Failure? ==> r.result.error == NoPopulationCounts
    ensures !IsFresh(cache, now) && rest.Fetched? ==>
      (r.result.Success? <==> forall i :: 0 <= i < |rest.body| ==> !Unjoinable(rest.body[i], PopulationList(pop)))
    ensures !IsFresh(cache, now) && r.result.Success? ==>
      rest.Fetched? && |r.result.value| == |rest.body| &&
      forall i :: 0 <= i < |rest.body| ==> MergeOne(rest.body[i], PopulationList(pop)) == Success(r.result.value[i])
  {
    if IsFresh(cache, now) then Reply(Success(cache.countries.value), cache)
    else match rest
      case FetchFailed => Reply(Failure(UpstreamUnavailable), cache)
      case Fetched(raw) =>
        MergeFailsOnlyOnEmptyCounts(raw, PopulationList(pop));
        match Merge(raw, PopulationList(pop))
        case Failure(e) => Reply(Failure(e), cache)
        case Success(combined) => Reply(Success(combined), CacheState(Some(combined), now))
  }

  /** A cache hit consumes no fetch result: the reply is the same whatever the upstreams would have said. */
  lemma HitIgnoresFetches(cache: CacheState, now: int,
                          rest1: Fetch<seq<RawCountry>>, pop1: Fetch<Option<seq<PopRecord>>>,
                          rest2: Fetch<seq<RawCountry>>, pop2: Fetch<Option<seq<PopRecord>>>)
    requires IsFresh(cache, now)
    ensures GetCountries(cache, now, rest1, pop1) == GetCountries(cache, now, rest2, pop2)
  {
  }

  /** A refresh that succeeds at `now` is served unchanged by every later call within the
      validity window, without a new fetch. */
  lemma RepeatWithinWindow(cache: CacheState, now: int, rest: Fetch<seq<RawCountry>>,
                           pop: Fetch<Option<seq<PopRecord>>>, later: int,
                           rest': Fetch<seq<RawCountry>>, pop': Fetch<Option<seq<PopRecord>>>)
    requires !IsFresh(cache, now)
    requires later - now < ValidityMs
    ensures var first := GetCountries(cache, now, rest, pop);
            first.result.Success? ==> GetCountries(first.cache, later, rest', pop') == first
  {
  }

  /** Once the window has elapsed the next call refreshes: it fails, or it replaces the
      snapshot with a list stamped with the new clock value. */
  lemma ExpiredRefreshes(cache: CacheState, now: int, rest: Fetch<seq<RawCountry>>,
                         pop: Fetch<Option<seq<PopRecord>>>)
    requires cache.countries.Some?
    requires now - cache.timestamp >= ValidityMs
    ensures var r := GetCountries(cache, now, rest, pop);
            r.result.Failure? || r.cache.timestamp == now
  {
  }

  /** With a failed population request, a refresh cannot fail on joining and every
      record falls back to the country source's own population. */
  lemma PopulationFailureFallsBack(cache: CacheState, now: int, raw: seq<RawCountry>)
    requires !IsFresh(cache, now)
    ensures var r := GetCountries(cache, now, Fetched(raw), FetchFailed);
            && r.result.Success?
            && |r.result.value| == |raw|
            && forall i :: 0 <= i < |raw| ==>
                 SameAttributes(raw[i], r.result.value[i]) &&
                 r.result.value[i].population == Fallback(raw[i].population)
  {
    MergeWithoutPopulations(raw);
    var combined := Merge(raw, []).value;
    MergePreservesAttributes(raw, [], combined);
  }
}
