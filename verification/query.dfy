/** The queries served on top of the cached list: lookup by identifier, local-time
    timezone choice, pairwise comparison and random pick. */
module Query {
  import opened Wrappers
  import opened Text
  import opened Data
  import opened Cache

  /** An optional code matches an already lower-cased query; an absent code never does. */
  function CodeMatches(code: Option<string>, lower: string): (b: bool)
    ensures code.None? ==> !b
    ensures code.Some? ==> (b <==> |code.value| == |lower| &&
                                   forall i :: 0 <= i < |lower| ==> LowerChar(code.value[i]) == lower[i])
  {
    code.Some? && var l := Lower(code.value);
    assert |l| == |lower| && (forall i :: 0 <= i < |l| ==> l[i] == lower[i]) ==> l == lower;
    l == lower
  }

  /** A country answers to a lower-cased query by its common name, `cca2` or `cca3`. */
  function Matches(c: Country, lower: string): (b: bool)
    ensures b ==> IsLowerCase(lower)
    ensures b <==> exists key :: key in Identifiers(c) && Lower(key) == lower
  {
    Lower(c.name.common) == lower || CodeMatches(c.cca2, lower) || CodeMatches(c.cca3, lower)
  }

  /** The identifiers a country answers to: its common name and the codes it has. */
  function Identifiers(c: Country): (ids: set<string>)
    ensures c.name.common in ids
    ensures c.cca2.Some? ==> c.cca2.value in ids
    ensures c.cca3.Some? ==> c.cca3.value in ids
    ensures forall code :: code in ids && code != c.name.common ==>
              c.cca2 == Some(code) || c.cca3 == Some(code)
  {
    {c.name.common}
      + (if c.cca2.Some? then {c.cca2.value} else {})
      + (if c.cca3.Some? then {c.cca3.value} else {})
  }

  /** `i` is the first position of the list whose country answers to `lower`. */
  predicate IsFirstCountry(list: seq<Country>, lower: string, i: int) {
    && 0 <= i < |list|
    && Matches(list[i], lower)
    && forall j :: 0 <= j < i ==> !Matches(list[j], lower)
  }

  /** The position `list.find` stops at. */
  function FirstCountry(list: seq<Country>, lower: string): (r: Option<nat>)
    ensures r.Some? ==> IsFirstCountry(list, lower, r.value)
    ensures r.None? <==> forall j :: 0 <= j < |list| ==> !Matches(list[j], lower)
  {
    if |list| == 0 then None
    else if Matches(list[0], lower) then Some(0)
    else match FirstCountry(list[1..], lower)
      case None => None
      case Some(k) => Some(k + 1)
  }

  /** `findCountry` on a given list: the first country answering to the query ignoring case. */
  function Find(list: seq<Country>, name: string): (r: Option<Country>)
    ensures r.None? <==> forall j :: 0 <= j < |list| ==> !Matches(list[j], Lower(name))
    ensures r.Some? ==> exists i :: IsFirstCountry(list, Lower(name), i) && r.value == list[i]
  {
    match FirstCountry(list, Lower(name))
    case Some(i) => Some(list[i])
    case None => None
  }

  /** Lookup ignores the case of the query. */
  lemma FindIgnoresCase(list: seq<Country>, name: string)
    ensures Find(list, name) == Find(list, Lower(name))
  {
    LowerIdempotent(name);
  }

  /** Every country of the list can be found by its own common name, and by each code it has. */
  lemma FindByOwnIdentifiers(list: seq<Country>, i: int)
    requires 0 <= i < |list|
    ensures Find(list, list[i].name.common).Some?
    ensures list[i].cca2.Some? ==> Find(list, list[i].cca2.value).Some?
    ensures list[i].cca3.Some? ==> Find(list, list[i].cca3.value).Some?
  {
    assert Matches(list[i], Lower(list[i].name.common));
    if list[i].cca2.Some? {
      assert Matches(list[i], Lower(list[i].cca2.value));
    }
    if list[i].cca3.Some? {
      assert Matches(list[i], Lower(list[i].cca3.value));
    }
  }

  /** `findCountry(name)`: reads the list through `getCountries`, then looks the name up.
      An undefined name throws only after the list was read, so a refresh made on the
      way is kept. */
  function FindCountry(cache: CacheState, now: int, rest: Fetch<seq<RawCountry>>,
                       pop: Fetch<Option<seq<PopRecord>>>, name: Option<string>): (r: Reply<Option<Country>>)
    ensures var g := GetCountries(cache, now, rest, pop);
            && r.cache == g.cache
            && (g.result.Failure? ==> r.result == Failure(g.result.error))
            && (g.result.Success? && name.None? ==> r.result == Failure(MissingQuery))
            && (g.result.Success? && name.Some? ==> r.result == Success(Find(g.result.value, name.value)))
  {
    var g := GetCountries(cache, now, rest, pop);
    match g.result
    case Failure(e) => Reply(Failure(e), g.cache)
    case Success(list) =>
      match name
      case None => Reply(Failure(MissingQuery), g.cache)
      case Some(q) => Reply(Success(Find(list, q)), g.cache)
  }

  /** On a fresh cache a lookup answers from the cached list and leaves the state as it was. */
  lemma FindCountryOnFreshCache(cache: CacheState, now: int, rest: Fetch<seq<RawCountry>>,
                                pop: Fetch<Option<seq<PopRecord>>>, name: string)
    requires IsFresh(cache, now)
    ensures FindCountry(cache, now, rest, pop, Some(name)) == Reply(Success(Find(cache.countries.value, name)), cache)
  {
  }

  /** The timezone shown by `/time`: the first listed timezone when there is a non-empty
      one, otherwise "UTC". */
  function Timezone(c: Country): (tz: string)
    ensures tz != ""
    ensures c.timezones.Some? && |c.timezones.value| > 0 && c.timezones.value[0] != "" ==> tz == c.timezones.value[0]
    ensures tz != "UTC" ==> c.timezones.Some? && |c.timezones.value| > 0 && tz == c.timezones.value[0]
  {
    match c.timezones
    case Some(zones) => if |zones| > 0 && zones[0] != "" then zones[0] else "UTC"
    case None => "UTC"
  }

  /** The body of a `/time` answer, without the formatted clock reading. */
  datatype LocalTime = LocalTime(country: string, timezone: string)

  /** `/time/:name` on a given list: not found, or the country's common name and timezone.
      The list is the one `GetCountries` answered; `FindCountry` followed by this answer is the route. */
  function TimeFor(list: seq<Country>, name: string): (r: Option<LocalTime>)
    ensures r.None? <==> Find(list, name).None?
    ensures r.Some? ==> r.value.timezone != ""
    ensures r.Some? ==> exists i :: IsFirstCountry(list, Lower(name), i) &&
                                    r.value == LocalTime(list[i].name.common, Timezone(list[i]))
  {
    match Find(list, name)
    case Some(c) => Some(LocalTime(c.name.common, Timezone(c)))
    case None => None
  }

  /** The answer of `/compare`: both countries, or "Invalid countries". */
  datatype Comparison = Both(a: Country, b: Country) | InvalidCountries

  /** The comparison rule: it answers only when both lookups found a country. */
  function CompareFound(a: Option<Country>, b: Option<Country>): (r: Comparison)
    ensures r.InvalidCountries? <==> a.None? || b.None?
    ensures r.Both? ==> a == Some(r.a) && b == Some(r.b)
  {
    if a.Some? && b.Some? then Both(a.value, b.value) else InvalidCountries
  }

  /** `/compare?A=..&B=..`: two lookups in sequence, each reading the list through
      `getCountries` with its own clock value and fetch outcomes. A failure of the first
      lookup ends the request before the second one runs. */
  function Compare(cache: CacheState,
                   nowA: int, restA: Fetch<seq<RawCountry>>, popA: Fetch<Option<seq<PopRecord>>>,
                   nowB: int, restB: Fetch<seq<RawCountry>>, popB: Fetch<Option<seq<PopRecord>>>,
                   nameA: Option<string>, nameB: Option<string>): (r: Reply<Comparison>)
    ensures var first := FindCountry(cache, nowA, restA, popA, nameA);
            first.result.Failure? ==> r == Reply(Failure(first.result.error), first.cache)
    ensures var first := FindCountry(cache, nowA, restA, popA, nameA);
            var second := FindCountry(first.cache, nowB, restB, popB, nameB);
            first.result.Success? ==>
              && r.cache == second.cache
              && (second.result.Failure? ==> r.result == Failure(second.result.error))
              && (second.result.Success? ==>
                    (r.result == Success(InvalidCountries) <==> first.result.value.None? || second.result.value.None?))
    ensures var first := FindCountry(cache, nowA, restA, popA, nameA);
            var second := FindCountry(first.cache, nowB, restB, popB, nameB);
            first.result.Success? && second.result.Success? &&
            first.result.value.Some? && second.result.value.Some? ==>
              r.result == Success(Both(first.result.value.value, second.result.value.value))
  {
    var first := FindCountry(cache, nowA, restA, popA, nameA);
    match first.result
    case Failure(e) => Reply(Failure(e), first.cache)
    case Success(a) =>
      var second := FindCountry(first.cache, nowB, restB, popB, nameB);
      match second.result
      case Failure(e) => Reply(Failure(e), second.cache)
      case Success(b) => Reply(Success(CompareFound(a, b)), second.cache)
  }

  /** Within the validity window both lookups of `/compare` read the same snapshot: the
      answer pairs the two countries found in it, or is "Invalid countries" exactly when
      either name matches nothing. */
  lemma CompareOnFreshCache(cache: CacheState,
                            nowA: int, restA: Fetch<seq<RawCountry>>, popA: Fetch<Option<seq<PopRecord>>>,
                            nowB: int, restB: Fetch<seq<RawCountry>>, popB: Fetch<Option<seq<PopRecord>>>,
                            nameA: string, nameB: string)
    requires IsFresh(cache, nowA) && IsFresh(cache, nowB)
    ensures var r := Compare(cache, nowA, restA, popA, nowB, restB, popB, Some(nameA), Some(nameB));
            && r.cache == cache
            && r.result.Success?
            && (r.result.value.InvalidCountries? <==>
                  (forall j :: 0 <= j < |cache.countries.value| ==> !Matches(cache.countries.value[j], Lower(nameA))) ||
                  (forall j :: 0 <= j < |cache.countries.value| ==> !Matches(cache.countries.value[j], Lower(nameB))))
    ensures var r := Compare(cache, nowA, restA, popA, nowB, restB, popB, Some(nameA), Some(nameB));
            r.result.Success? && r.result.value.Both? ==>
              && Find(cache.countries.value, nameA) == Some(r.result.value.a)
              && Find(cache.countries.value, nameB) == Some(r.result.value.b)
  {
    FindCountryOnFreshCache(cache, nowA, restA, popA, nameA);
    FindCountryOnFreshCache(cache, nowB, restB, popB, nameB);
  }

  /** `Math.floor(u * length)` for a draw `u` in [0, 1). */
  function RandomIndex(length: nat, u: real): (i: int)
    requires 0.0 <= u < 1.0
    ensures length > 0 ==> 0 <= i < length
    ensures length == 0 ==> i == 0
  {
    var x := u * length as real;
    assert length > 0 ==> x < length as real;
    assert x.Floor as real <= x;
    x.Floor
  }

  /** `/random` on a given list: the element at the drawn index, or `undefined` for an empty list.
      The list is the one `GetCountries` answered for the request. */
  function RandomPick(list: seq<Country>, u: real): (r: Option<Country>)
    requires 0.0 <= u < 1.0
    ensures r.None? <==> |list| == 0
    ensures r.Some? ==> r.value in list
  {
    var i := RandomIndex(|list|, u);
    if 0 <= i < |list| then Some(list[i]) else None
  }
}
