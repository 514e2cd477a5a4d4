/** Worked requests against concrete data. */
module Scenarios {
  import opened Wrappers
  import opened Text
  import opened Data
  import opened Join
  import opened Cache
  import opened Query

  function RawIndia(population: Option<int>): RawCountry {
    RawCountry(Name("India", []), Some("IN"), Some("IND"), Some(JStr("Asia")), None,
               Some(["Asia/Kolkata"]), None, None, None, None, population, [])
  }

  /** The population source fails and India carries its own population of 1000: the
      refresh from the initial state stores and answers India with population 1000. */
  lemma IndiaFallsBackToOwnPopulation(now: int)
    ensures var r := GetCountries(Initial, now, Fetched([RawIndia(Some(1000))]), FetchFailed);
            && r.result.Success?
            && |r.result.value| == 1
            && r.result.value[0].population == Some(1000)
            && r.cache == CacheState(Some(r.result.value), now)
  {
    PopulationFailureFallsBack(Initial, now, [RawIndia(Some(1000))]);
  }

  /** India has no population field; the population source lists it with two yearly
      counts: the later count is used. */
  lemma IndiaTakesLatestCount()
    ensures var pops := [PopRecord("India", [PopCount(2020, 500), PopCount(2023, 1400000000)])];
            Merge([RawIndia(None)], pops) == Success([
              Country(Name("India", []), Some("IN"), Some("IND"), Some(JStr("Asia")), None,
                      Some(["Asia/Kolkata"]), None, None, None, None, Some(1400000000))])
  {
    var pops := [PopRecord("India", [PopCount(2020, 500), PopCount(2023, 1400000000)])];
    assert NamesMatch(pops[0], "India");
    assert FirstMatch(pops, "India") == Some(0);
    var expected := Country(Name("India", []), Some("IN"), Some("IND"), Some(JStr("Asia")), None,
                            Some(["Asia/Kolkata"]), None, None, None, None, Some(1400000000));
    assert MergeOne(RawIndia(None), pops) == Success(expected);
    var rs := [RawIndia(None)];
    assert rs[1..] == [];
    assert [expected] + [] == [expected];
  }

  /** A population record spelled in another case still matches, and a zero population
      without a match becomes null. */
  lemma MatchIgnoresCaseAndZeroIsNull()
    ensures var pops := [PopRecord("INDIA", [PopCount(2023, 7)])];
            && Merge([RawIndia(None)], pops).value[0].population == Some(7)
            && Merge([RawIndia(Some(0))], []).value[0].population == None
  {
    var pops := [PopRecord("INDIA", [PopCount(2023, 7)])];
    assert Lower("INDIA") == "india";
    assert Lower("India") == "india";
    assert NamesMatch(pops[0], "India");
  }

  /** India is found by its code in any case; an unknown code is not found, so comparing
      India with an unknown name answers "Invalid countries". */
  lemma LookupAndCompare(india: Country)
    requires india.name.common == "India" && india.cca2 == Some("IN") && india.cca3 == Some("IND")
    ensures Find([india], "in") == Some(india)
    ensures Find([india], "xx").None?
    ensures CompareFound(Find([india], "india"), Find([india], "unknownland")) == InvalidCountries
  {
    assert Lower("IN") == "in";
    assert Lower("in") == "in";
    assert Matches(india, Lower("in"));
    assert Lower("India") == "india";
    assert Lower("xx") == "xx";
    assert Lower("IND") == "ind";
    assert !Matches(india, Lower("xx"));
    assert Lower("unknownland") == "unknownland";
    assert !Matches(india, Lower("unknownland"));
    assert Matches(india, Lower("india"));
  }
}
