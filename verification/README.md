# Country API aggregation core, in Dafny

This project models the decision logic of a small read-only country service
(`server.js`). The service merges country metadata with population statistics,
keeps the merged list in a one-hour cache, and answers lookups, local-time
queries, pairwise comparisons and random picks on top of it.

The model is purely functional:

- The process-wide cache is an explicit value `CacheState(countries, timestamp)`,
  threaded in and out of each call. `countries == None` is the `null` the cache starts
  with. An empty list counts as present, as any array does in JavaScript.
- The clock value `now` and the outcomes of the two upstream requests are parameters.
  The country request is a `Fetch<seq<RawCountry>>`. The population request is a
  `Fetch<Option<seq<PopRecord>>>`: `Fetched(None)` is a response without a `data` list.
- Things that throw in the source become `Failure` results:
  - `UpstreamUnavailable`: the country request was rejected.
  - `NoPopulationCounts`: `.at(-1).value` on an empty `populationCounts`.
  - `MissingQuery`: `toLowerCase` on an undefined query parameter.
- `toLowerCase` is modelled as ASCII lower-casing (`Text.Lower`).

Modules: `Wrappers` (Option, Result), `Text` (lower-casing), `Data` (records),
`Join` (the join of the two datasets), `Cache` (`getCountries`), `Query` (lookup,
`/time`, `/compare`, `/random`) and `Scenarios` (worked requests on concrete data).

Points where the code's behaviour is easy to misread, and how the model follows it:

- Fallback population: a country source population of `0` becomes `null` (JavaScript
  `population || null`), not only a missing one.
- A matched population value of `0` is kept, since no `||` applies to it.
- The timezone falls back to "UTC" when the list is missing or empty, and also when its
  first entry is the empty string.
- A lookup with an undefined query reads the list first (possibly refreshing the cache)
  and then throws. The refresh is kept.
- A matched population record without yearly counts makes the whole refresh throw. The
  cache is left untouched.

## Model

| member | source | states |
|---|---|---|
| Text.LowerChar | server.js:36 | only ASCII upper-case letters change, and they become their lower-case letter |
| Text.Lower | server.js:36 | lower-casing keeps the length and lower-cases each character on its own, so no upper-case letter is left and every other character is kept |
| Text.LowerIdempotent | server.js:68 | lower-casing a lower-cased string changes nothing |
| Join.NamesMatchCharwise | server.js:36 | a population record matches a country exactly when the two names have the same length and agree character by character after lower-casing |
| Join.FirstMatch | server.js:35-37 | the population `find` returns the first record whose name equals the country's common name ignoring case, and none only when no record matches |
| Join.FirstMatchUnique | server.js:35-37 | the first matching record is unique |
| Join.Fallback | server.js:41 | `population \|\| null`: the own population is kept exactly when present and nonzero, otherwise null |
| Join.MergeOne | server.js:34-55 | one combined record copies every attribute verbatim; its population is the last yearly value of the first matching record, or the fallback when nothing matches; it throws exactly when the first match has no counts |
| Join.Merge | server.js:34-56 | the combined list has the input's length and order, element i being the join of raw record i; it fails exactly when some record cannot be joined |
| Join.MergePreservesAttributes | server.js:43-55 | element i of the combined list carries name, cca2, cca3, region, capital, timezones, area, flags, maps and currencies of raw record i |
| Join.MergeMatchedPopulation | server.js:35-40 | with a first matching record at k, the population is the value of k's last yearly count |
| Join.MergeUnmatchedPopulation | server.js:41 | with no matching record, the population is the country's own when present and nonzero, else null |
| Join.MergeFailsOnlyOnEmptyCounts | server.js:39-40 | the join throws if and only if some country's first matching record has an empty list of counts |
| Join.MergeWithoutPopulations | server.js:32-41 | with an empty population list the join cannot fail and every country takes the fallback population |
| Cache.IsFresh | server.js:20 | the cache may be served exactly when a list is present (an empty one counts) and the clock is less than one hour past its timestamp |
| Cache.PopulationList | server.js:29-32 | a failed population request or a response without a data list yields the empty list; otherwise the list itself |
| Cache.GetCountries | server.js:16-64 | a fresh cache is returned with the state untouched; otherwise a failed country request fails with `UpstreamUnavailable` and a failed join with `NoPopulationCounts`, both with the state untouched, and a success stores exactly the combined list stamped with the entry clock value and returns that list |
| Cache.HitIgnoresFetches | server.js:20-22 | a cache hit consumes no fetch outcome: the reply is the same whatever the upstreams return |
| Cache.RepeatWithinWindow | server.js:17-63 | after a successful refresh at now, any call less than an hour later returns the same list and leaves the state as it is |
| Cache.ExpiredRefreshes | server.js:20-61 | once an hour has passed the call either fails or restamps the cache with the new clock value |
| Cache.PopulationFailureFallsBack | server.js:27-41 | when the population request fails, the refresh succeeds and every record keeps its attributes and falls back to its own population |
| Query.CodeMatches | server.js:71-72 | an absent code never matches; a present code matches exactly when its lower-cased characters equal the query's |
| Query.Identifiers | server.js:70-72 | a country answers to its common name and to each code it has, and to nothing else |
| Query.Matches | server.js:69-73 | the `find` callback holds exactly when some identifier of the country lower-cases to the query, which is then lower case |
| Query.FirstCountry | server.js:69-73 | the lookup `find` returns the first position whose lower-cased common name, cca2 or cca3 equals the query (itself already lower-cased), and none only when nothing matches |
| Query.Find | server.js:66-74 | findCountry returns the first matching country in list order, and not-found exactly when no country matches |
| Query.FindIgnoresCase | server.js:68-72 | lookup gives the same answer for a query and its lower-cased form |
| Query.FindByOwnIdentifiers | server.js:69-73 | every listed country is found by its own common name and by each code it has |
| Query.FindCountry | server.js:66-68 | findCountry reads the list through getCountries and keeps its state change; its failure propagates; an undefined query fails after the read |
| Query.FindCountryOnFreshCache | server.js:66-73 | on a fresh cache a lookup answers from the cached list and leaves the state unchanged |
| Query.Timezone | server.js:97 | the timezone is the first listed one when it exists and is non-empty, otherwise "UTC"; it is never empty |
| Query.TimeFor | server.js:93-100 | `/time` answers not-found exactly when the lookup does, otherwise the found country's common name and timezone |
| Query.CompareFound | server.js:107-108 | the comparison is "Invalid countries" exactly when either lookup found nothing, otherwise both countries |
| Query.Compare | server.js:104-108 | `/compare` runs two lookups in order; a failure of the first ends the request; otherwise the state is the second lookup's, the answer is invalid exactly when either lookup found nothing, and when both found a country the answer is that pair |
| Query.CompareOnFreshCache | server.js:104-108 | within the validity window both lookups read the same snapshot, the state is unchanged, the answer is invalid exactly when either name matches no country, and a valid answer pairs the countries found in the snapshot |
| Query.RandomIndex | server.js:114 | for a non-empty list the drawn index is a valid position |
| Query.RandomPick | server.js:112-115 | `/random` yields an element of the list, and nothing exactly when the list is empty |
| Scenarios.IndiaFallsBackToOwnPopulation | server.js:27-63 | with the population request failed, India with population 1000 is stored and answered with population 1000 |
| Scenarios.IndiaTakesLatestCount | server.js:34-55 | India without a population field takes 1400000000, the later of its two yearly counts |
| Scenarios.MatchIgnoresCaseAndZeroIsNull | server.js:36-41 | "INDIA" matches "India"; an unmatched zero population becomes null |
| Scenarios.LookupAndCompare | server.js:66-73 | India is found by "in"; "xx" is not found; comparing India with an unknown name is invalid |

## Left out

- HTTP plumbing: the Express app, routes as handlers, JSON bodies, status codes, CORS, `PORT` and `listen` (server.js:1-8, 80-124). Only the decision rules the routes wrap are modelled.
- The network requests and the concurrency of `Promise.all`. The two fetch outcomes are parameters and a refresh is one atomic step. Two overlapping refreshes (last write wins) are not modelled.
- `Date.now()` is the parameter `now`, and `Math.random()` is the parameter `u` in [0, 1). Floating-point rounding of `u * length` is not modelled: the product is computed in exact reals.
- The formatted local time of `/time` (moment-timezone) is left out. `Query.TimeFor` answers the country name and timezone only.
- Unicode lower-casing. `toLowerCase` is modelled for ASCII letters only.
- Upstream data that does not have the documented shape is not modelled. Examples: a missing `name.common`, a non-string code, a non-numeric population or a yearly count without `value`. A query parameter given as an array (`?A=x&A=y`) is also not modelled.
- Query.RandomPick: for an empty list the source answers with an undefined body. The model gives `None` and does not model the response.
