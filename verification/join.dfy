/** Joining country records with population records (the `rest.data.map(...)` step of a refresh). */
module Join {
  import opened Wrappers
  import opened Text
  import opened Data

  /** A population record belongs to a country when the names agree ignoring case. */
  predicate NamesMatch(p: PopRecord, common: string) {
    Lower(p.country) == Lower(common)
  }

  /** The names match exactly when they have the same length and agree character by
      character once each character is lower-cased. */
  lemma NamesMatchCharwise(p: PopRecord, common: string)
    ensures NamesMatch(p, common) <==>
            |p.country| == |common| &&
            forall i :: 0 <= i < |common| ==> LowerChar(p.country[i]) == LowerChar(common[i])
  {
    var l, r := Lower(p.country), Lower(common);
    assert |l| == |r| && (forall i :: 0 <= i < |r| ==> l[i] == r[i]) ==> l == r;
  }

  /** `k` is the position of the first population record whose name matches `common`. */
  predicate IsFirstMatch(pops: seq<PopRecord>, common: string, k: int) {
    && 0 <= k < |pops|
    && NamesMatch(pops[k], common)
    && forall j :: 0 <= j < k ==> !NamesMatch(pops[j], common)
  }

  /** The position `popList.find` stops at, or `None` when no record matches. */
  function FirstMatch(pops: seq<PopRecord>, common: string): (r: Option<nat>)
    ensures r.Some? ==> IsFirstMatch(pops, common, r.value)
    ensures r.None? <==> forall j :: 0 <= j < |pops| ==> !NamesMatch(pops[j], common)
  {
    if |pops| == 0 then None
    else if NamesMatch(pops[0], common) then Some(0)
    else match FirstMatch(pops[1..], common)
      case None => None
      case Some(k) => Some(k + 1)
  }

  /** There is at most one first match. */
  lemma FirstMatchUnique(pops: seq<PopRecord>, common: string, k: int, k': int)
    requires IsFirstMatch(pops, common, k) && IsFirstMatch(pops, common, k')
    ensures k == k'
  {
  }

  /** JavaScript's `population || null`: a missing or zero population becomes `null`. */
  function Fallback(population: Option<int>): (r: Option<int>)
    ensures r.Some? <==> population.Some? && population.value != 0
    ensures r.Some? ==> r == population
  {
    match population
    case Some(n) => if n != 0 then Some(n) else None
    case None => None
  }

  /** A country whose first matching population record has no yearly counts. */
  predicate Unjoinable(c: RawCountry, pops: seq<PopRecord>) {
    match FirstMatch(pops, c.name.common)
    case Some(k) => |pops[k].populationCounts| == 0
    case None => false
  }

  /** Every field except `population` is copied from the raw record verbatim. */
  predicate SameAttributes(c: RawCountry, r: Country) {
    && r.name == c.name
    && r.cca2 == c.cca2
    && r.cca3 == c.cca3
    && r.region == c.region
    && r.capital == c.capital
    && r.timezones == c.timezones
    && r.area == c.area
    && r.flags == c.flags
    && r.maps == c.maps
    && r.currencies == c.currencies
  }

  /** Builds the combined record for one raw country. */
  function MergeOne(c: RawCountry, pops: seq<PopRecord>): (r: Result<Country, Error>)
    ensures r.Failure? <==> exists k :: IsFirstMatch(pops, c.name.common, k) && |pops[k].populationCounts| == 0
    ensures r.Failure? ==> r.error == NoPopulationCounts
    ensures r.Success? ==> SameAttributes(c, r.value)
    ensures r.Success? ==> forall k :: IsFirstMatch(pops, c.name.common, k) ==>
      var counts := pops[k].populationCounts;
      |counts| > 0 && r.value.population == Some(counts[|counts| - 1].value)
    ensures r.Success? && (forall j :: 0 <= j < |pops| ==> !NamesMatch(pops[j], c.name.common)) ==>
      r.value.population == Fallback(c.population)
  {
    var found := FirstMatch(pops, c.name.common);
    if found.Some? && |pops[found.value].populationCounts| == 0 then
      assert IsFirstMatch(pops, c.name.common, found.value);
      Failure(NoPopulationCounts)
    else
      var population :=
        if found.Some? then
          var counts := pops[found.value].populationCounts;
          Some(counts[|counts| - 1].value)
        else Fallback(c.population);
      var r := Country(c.name, c.cca2, c.cca3, c.region, c.capital, c.timezones,
                       c.area, c.flags, c.maps, c.currencies, population);
      assert forall k :: IsFirstMatch(pops, c.name.common, k) ==> found == Some(k) by {
        forall k | IsFirstMatch(pops, c.name.common, k)
          ensures found == Some(k)
        {
          FirstMatchUnique(pops, c.name.common, found.value, k);
        }
      }
      Success(r)
  }

  /** Joins every raw country, in order; fails as soon as one record cannot be joined. */
  function Merge(rest: seq<RawCountry>, pops: seq<PopRecord>): (r: Result<seq<Country>, Error>)
    ensures r.Failure? <==> exists i :: 0 <= i < |rest| && MergeOne(rest[i], pops).Failure?
    ensures r.Failure? ==> r.error == NoPopulationCounts
    ensures r.Success? ==> |r.value| == |rest|
    ensures r.Success? ==> forall i :: 0 <= i < |rest| ==> MergeOne(rest[i], pops) == Success(r.value[i])
  {
    if |rest| == 0 then Success([])
    else match MergeOne(rest[0], pops)
      case Failure(e) => Failure(e)
      case Success(c) =>
        match Merge(rest[1..], pops)
        case Failure(e) =>
          assert exists i :: 0 <= i < |rest[1..]| && MergeOne(rest[1..][i], pops).Failure?;
          Failure(e)
        case Success(cs) =>
          assert forall i :: 1 <= i < |rest| ==> rest[i] == rest[1..][i - 1];
          Success([c] + cs)
  }

  /** The combined list has the input's length and order, each element carrying its
      raw record's attributes verbatim. */
  lemma MergePreservesAttributes(rest: seq<RawCountry>, pops: seq<PopRecord>, combined: seq<Country>)
    requires Merge(rest, pops) == Success(combined)
    ensures |combined| == |rest|
    ensures forall i :: 0 <= i < |rest| ==> SameAttributes(rest[i], combined[i])
  {
    forall i | 0 <= i < |rest|
      ensures SameAttributes(rest[i], combined[i])
    {
      assert MergeOne(rest[i], pops) == Success(combined[i]);
    }
  }

  /** A country with a matching population record takes the last yearly value of the
      first such record. */
  lemma MergeMatchedPopulation(rest: seq<RawCountry>, pops: seq<PopRecord>, combined: seq<Country>, i: int, k: int)
    requires Merge(rest, pops) == Success(combined)
    requires 0 <= i < |rest|
    requires 0 <= k < |pops| && NamesMatch(pops[k], rest[i].name.common)
    requires forall j :: 0 <= j < k ==> !NamesMatch(pops[j], rest[i].name.common)
    ensures |pops[k].populationCounts| > 0
    ensures combined[i].population == Some(pops[k].populationCounts[|pops[k].populationCounts| - 1].value)
  {
    assert MergeOne(rest[i], pops) == Success(combined[i]);
    assert IsFirstMatch(pops, rest[i].name.common, k);
  }

  /** A country without a matching population record keeps its own population when
      that is present and nonzero, and gets `null` otherwise. */
  lemma MergeUnmatchedPopulation(rest: seq<RawCountry>, pops: seq<PopRecord>, combined: seq<Country>, i: int)
    requires Merge(rest, pops) == Success(combined)
    requires 0 <= i < |rest|
    requires forall j :: 0 <= j < |pops| ==> !NamesMatch(pops[j], rest[i].name.common)
    ensures combined[i].population == (if rest[i].population.Some? && rest[i].population.value != 0
                                       then rest[i].population else None)
  {
    assert MergeOne(rest[i], pops) == Success(combined[i]);
  }

  /** Joining fails exactly when some country's first matching record has no counts. */
  lemma MergeFailsOnlyOnEmptyCounts(rest: seq<RawCountry>, pops: seq<PopRecord>)
    ensures Merge(rest, pops).Failure? <==> exists i :: 0 <= i < |rest| && Unjoinable(rest[i], pops)
  {
    forall i | 0 <= i < |rest|
      ensures MergeOne(rest[i], pops).Failure? <==> Unjoinable(rest[i], pops)
    {
      var found := FirstMatch(pops, rest[i].name.common);
      if MergeOne(rest[i], pops).Failure? {
        var k :| IsFirstMatch(pops, rest[i].name.common, k) && |pops[k].populationCounts| == 0;
        FirstMatchUnique(pops, rest[i].name.common, found.value, k);
      } else if found.Some? {
        assert IsFirstMatch(pops, rest[i].name.common, found.value);
      }
    }
  }

  /** Without population data every country falls back to its own population and the
      join cannot fail. */
  lemma MergeWithoutPopulations(rest: seq<RawCountry>)
    ensures Merge(rest, []).Success?
    ensures forall i :: 0 <= i < |rest| ==>
      Merge(rest, []).value[i].population == Fallback(rest[i].population)
  {
    MergeFailsOnlyOnEmptyCounts(rest, []);
  }
}
