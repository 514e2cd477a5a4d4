/** The records exchanged with the two upstream sources and the combined record served to clients. */
module Data {
  import opened Wrappers

  /** An opaque JSON value, copied through without interpretation; numbers may be fractional. */
  datatype Json =
    | JNull
    | JBool(b: bool)
    | JNum(n: real)
    | JStr(s: string)
    | JArr(items: seq<Json>)
    | JObj(fields: seq<(string, Json)>)

  /** The structured name of a country; `common` is the key used for joining and lookup. */
  datatype Name = Name(common: string, others: seq<(string, Json)>)

  /** A country as delivered by the country source. Absent fields are `None`;
      `others` holds every field the service does not copy. */
  datatype RawCountry = RawCountry(
    name: Name,
    cca2: Option<string>,
    cca3: Option<string>,
    region: Option<Json>,
    capital: Option<Json>,
    timezones: Option<seq<string>>,
    area: Option<Json>,
    flags: Option<Json>,
    maps: Option<Json>,
    currencies: Option<Json>,
    population: Option<int>,
    others: seq<(string, Json)>)

  /** One yearly count of the population source. */
  datatype PopCount = PopCount(year: int, value: int)

  /** A population record: a country display name and its yearly counts, oldest first. */
  datatype PopRecord = PopRecord(country: string, populationCounts: seq<PopCount>)

  /** The combined record stored in the cache; `population == None` is JSON `null`. */
  datatype Country = Country(
    name: Name,
    cca2: Option<string>,
    cca3: Option<string>,
    region: Option<Json>,
    capital: Option<Json>,
    timezones: Option<seq<string>>,
    area: Option<Json>,
    flags: Option<Json>,
    maps: Option<Json>,
    currencies: Option<Json>,
    population: Option<int>)

  /** Why a request fails instead of answering. */
  datatype Error =
    | UpstreamUnavailable   // the country source failed; the rejection propagates
    | NoPopulationCounts    // a matched population record has no yearly counts: `.at(-1).value` throws
    | MissingQuery          // a lookup was asked for an undefined name: `name.toLowerCase()` throws
}
