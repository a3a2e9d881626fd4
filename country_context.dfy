/**
 * `CountryProvider`: the country list fetched once, the search text and
 * region chosen by the user, and the list derived from the three.
 */
module CountryContext {
  import opened Wrappers
  import opened Countries
  import opened Seqs
  import opened Text

  /** The name test of the search: lowercased `name.common` includes the lowercased term. */
  predicate NameMatches(c: Country, term: string)
  {
    Named(c) && Contains(ToLower(CommonName(c)), ToLower(term))
  }

  /** The region test: exact, case-sensitive equality. */
  predicate RegionMatches(c: Country, region: string)
  {
    c.region == region
  }

  /** The one-pass reference test: each active criterion holds, an empty criterion lets everything through. */
  predicate Matches(c: Country, term: string, region: string)
  {
    (term != "" ==> NameMatches(c, term)) && (region != "" ==> RegionMatches(c, region))
  }

  /**
   * When the search text is non-empty the source reads `name.common` of every
   * country, so each must have a name (otherwise the effect throws).
   */
  predicate SearchableBy(countries: seq<Country>, term: string)
  {
    term != "" ==> forall i :: 0 <= i < |countries| ==> Named(countries[i])
  }

  /** The filter effect: first the name filter when `term` is set, then the region filter when `region` is set. */
  function FilteredCountries(countries: seq<Country>, term: string, region: string): (r: seq<Country>)
    requires SearchableBy(countries, term)
    ensures term == "" && region == "" ==> r == countries
    ensures IsSubsequence(r, countries)
    ensures forall c :: c in r ==> c in countries && Matches(c, term, region)
    ensures forall c :: c in countries && Matches(c, term, region) ==> c in r
  {
    var byName := if term != "" then Filter(countries, c => NameMatches(c, term)) else countries;
    var result := if region != "" then Filter(byName, c => RegionMatches(c, region)) else byName;
    FilteredIsOnePass(countries, term, region);
    FilterIsSubsequence(countries, c => Matches(c, term, region));
    result
  }

  /** The two-stage filter is the single filter with the combined test. */
  lemma FilteredIsOnePass(countries: seq<Country>, term: string, region: string)
    ensures (var byName := if term != "" then Filter(countries, c => NameMatches(c, term)) else countries;
             var result := if region != "" then Filter(byName, c => RegionMatches(c, region)) else byName;
             result == Filter(countries, c => Matches(c, term, region)))
  {
    var m := (c: Country) => Matches(c, term, region);
    var n := (c: Country) => NameMatches(c, term);
    var g := (c: Country) => RegionMatches(c, region);
    if term != "" && region != "" {
      FilterFilter(countries, n, g, m);
    } else if term != "" {
      FilterAgree(countries, n, m);
    } else if region != "" {
      FilterAgree(countries, g, m);
    } else {
      FilterAllPass(countries, m);
    }
  }

  /** The result depends on the search text only through its lower-cased form. */
  lemma {:induction false} SearchIgnoresCase(countries: seq<Country>, t1: string, t2: string, region: string)
    requires ToLower(t1) == ToLower(t2)
    requires SearchableBy(countries, t1)
    ensures SearchableBy(countries, t2)
    ensures FilteredCountries(countries, t1, region) == FilteredCountries(countries, t2, region)
  {
    assert |t1| == |t2|;
    FilteredIsOnePass(countries, t1, region);
    FilteredIsOnePass(countries, t2, region);
    FilterAgree(countries, c => Matches(c, t1, region), c => Matches(c, t2, region));
  }

  /** Typing the search text in upper or lower case gives the same list. */
  lemma SearchCaseVariants(countries: seq<Country>, term: string, region: string)
    requires SearchableBy(countries, term)
    ensures SearchableBy(countries, ToUpper(term)) && SearchableBy(countries, ToLower(term))
    ensures FilteredCountries(countries, ToUpper(term), region) == FilteredCountries(countries, term, region)
    ensures FilteredCountries(countries, ToLower(term), region) == FilteredCountries(countries, term, region)
  {
    ToLowerForgetsCase(term);
    ToLowerIdempotent(term);
    SearchIgnoresCase(countries, term, ToUpper(term), region);
    SearchIgnoresCase(countries, term, ToLower(term), region);
  }

  /** Applying the region filter to the whole list or to the name-filtered list commutes. */
  lemma {:induction false} RegionThenNameSame(countries: seq<Country>, term: string, region: string)
    requires SearchableBy(countries, term)
    ensures (var byRegion := if region != "" then Filter(countries, c => RegionMatches(c, region)) else countries;
             var result := if term != "" then Filter(byRegion, c => NameMatches(c, term)) else byRegion;
             result == FilteredCountries(countries, term, region))
  {
    var m := (c: Country) => Matches(c, term, region);
    var n := (c: Country) => NameMatches(c, term);
    var g := (c: Country) => RegionMatches(c, region);
    FilteredIsOnePass(countries, term, region);
    if term != "" && region != "" {
      FilterFilter(countries, g, n, m);
    } else if term != "" {
      FilterAgree(countries, n, m);
    } else if region != "" {
      FilterAgree(countries, g, m);
    } else {
      FilterAllPass(countries, m);
    }
  }

  /** A record with only the fields the filter reads. */
  function Sample(common: string, region: string): Country
  {
    Country(Some(CountryName(common, common, [])), "", region, "", None, None, None, None, None)
  }

  /** Germany and Ghana: "ger" within Europe keeps only Germany. */
  lemma SearchWithRegionExample()
    ensures FilteredCountries([Sample("Germany", "Europe"), Sample("Ghana", "Africa")], "ger", "Europe")
            == [Sample("Germany", "Europe")]
  {
    var germany, ghana := Sample("Germany", "Europe"), Sample("Ghana", "Africa");
    var s := [germany, ghana];
    assert ToLower("ger") == "ger";
    assert StartsWith(ToLower("Germany"), "ger");
    assert Matches(germany, "ger", "Europe");
    assert !Matches(ghana, "ger", "Europe");
    FilteredIsOnePass(s, "ger", "Europe");
    var m := (c: Country) => Matches(c, "ger", "Europe");
    assert s[1..] == [ghana] && [ghana][1..] == [];
    assert Filter([ghana], m) == [];
    assert Filter(s, m) == [germany];
  }

  /** Germany and Ghana: "g" with no region keeps both, in their order. */
  lemma SearchOnlyExample()
    ensures FilteredCountries([Sample("Germany", "Europe"), Sample("Ghana", "Africa")], "g", "")
            == [Sample("Germany", "Europe"), Sample("Ghana", "Africa")]
  {
    var germany, ghana := Sample("Germany", "Europe"), Sample("Ghana", "Africa");
    var s := [germany, ghana];
    assert ToLower("g") == "g";
    assert StartsWith(ToLower("Germany"), "g");
    assert StartsWith(ToLower("Ghana"), "g");
    assert Matches(germany, "g", "") && Matches(ghana, "g", "");
    FilteredIsOnePass(s, "g", "");
    FilterAllPass(s, (c: Country) => Matches(c, "g", ""));
  }

  /** The provider's state. The effects run in the order the runtime schedules them. */
  class Provider {
    var countries: seq<Country>
    var filteredCountries: seq<Country>
    var loading: bool
    var error: Option<string>
    var searchTerm: string
    var selectedRegion: string

    /** What the provider keeps true: the shown list is drawn from the fetched list in its order. */
    ghost predicate Valid()
      reads this
    {
      IsSubsequence(filteredCountries, countries)
    }

    /** The initial state: nothing fetched yet, loading, no filter. */
    constructor ()
      ensures Valid()
      ensures countries == [] && filteredCountries == [] && loading && error == None
      ensures searchTerm == "" && selectedRegion == ""
    {
      countries := [];
      filteredCountries := [];
      loading := true;
      error := None;
      searchTerm := "";
      selectedRegion := "";
    }

    /** The fetch starts: `setLoading(true)`. */
    method BeginFetch()
      modifies this
      ensures loading
      ensures countries == old(countries) && filteredCountries == old(filteredCountries)
      ensures error == old(error) && searchTerm == old(searchTerm) && selectedRegion == old(selectedRegion)
    {
      loading := true;
    }

    /** The fetch returned `data`: it becomes both lists and loading ends. */
    method FetchSucceeded(data: seq<Country>)
      modifies this
      ensures Valid()
      ensures countries == data && filteredCountries == data && !loading
      ensures error == old(error) && searchTerm == old(searchTerm) && selectedRegion == old(selectedRegion)
    {
      countries := data;
      filteredCountries := data;
      loading := false;
      SubsequenceReflexive(data);
    }

    /** The fetch threw: its message becomes the error and loading ends; the lists stay. */
    method FetchFailed(message: string)
      requires Valid()
      modifies this
      ensures Valid()
      ensures error == Some(message) && !loading
      ensures countries == old(countries) && filteredCountries == old(filteredCountries)
      ensures searchTerm == old(searchTerm) && selectedRegion == old(selectedRegion)
    {
      error := Some(message);
      loading := false;
    }

    /** `setSearchTerm(term)`; the filter effect runs afterwards as `ApplyFilter`. */
    method SetSearchTerm(term: string)
      requires Valid()
      modifies this
      ensures Valid()
      ensures searchTerm == term
      ensures countries == old(countries) && filteredCountries == old(filteredCountries)
      ensures loading == old(loading) && error == old(error) && selectedRegion == old(selectedRegion)
    {
      searchTerm := term;
    }

    /** `setSelectedRegion(region)`; the filter effect runs afterwards as `ApplyFilter`. */
    method SetSelectedRegion(region: string)
      requires Valid()
      modifies this
      ensures Valid()
      ensures selectedRegion == region
      ensures countries == old(countries) && filteredCountries == old(filteredCountries)
      ensures loading == old(loading) && error == old(error) && searchTerm == old(searchTerm)
    {
      selectedRegion := region;
    }

    /** The filter effect, run whenever `searchTerm`, `selectedRegion` or `countries` changed. */
    method ApplyFilter()
      requires SearchableBy(countries, searchTerm)
      modifies this
      ensures countries == old(countries) && loading == old(loading) && error == old(error)
      ensures searchTerm == old(searchTerm) && selectedRegion == old(selectedRegion)
      ensures filteredCountries == FilteredCountries(countries, searchTerm, selectedRegion)
      ensures Valid()
    {
      var term, region := searchTerm, selectedRegion;
      var result := countries;
      if term != "" {
        result := Filter(result, c => NameMatches(c, term));
      }
      if region != "" {
        result := Filter(result, c => RegionMatches(c, region));
      }
      filteredCountries := result;
    }
  }
}
