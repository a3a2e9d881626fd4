/**
 * `FavoritesPage`: the stored favorite codes, the country records fetched for
 * them, the page's own search box, and removal of a favorite.
 */
module FavoritesPage {
  import opened Wrappers
  import opened Countries
  import opened Browser
  import opened Seqs
  import opened Text

  const LoadError: string := "Failed to load your favorite countries"
  const DetailsError: string := "Failed to load country details"

  /** The records of the full API list whose `cca3` is among the favorite ids, in API order. */
  function SelectFavorites(all: seq<Country>, ids: seq<string>): (r: seq<Country>)
    ensures IsSubsequence(r, all)
    ensures forall c :: c in r <==> c in all && c.cca3 in ids
    ensures forall c :: multiset(r)[c] == if c.cca3 in ids then multiset(all)[c] else 0
  {
    var chosen := (c: Country) => c.cca3 in ids;
    FilterIsSubsequence(all, chosen);
    assert forall c :: multiset(Filter(all, chosen))[c] == if chosen(c) then multiset(all)[c] else 0 by {
      forall c {
        FilterCount(all, chosen, c);
      }
    }
    Filter(all, chosen)
  }

  /** Without favorite ids no record is selected. */
  lemma SelectNone(all: seq<Country>)
    ensures SelectFavorites(all, []) == []
  {
    FilterNonePass(all, (c: Country) => c.cca3 in []);
  }

  /** `name.common || name.official || ''`. */
  function DisplayName(n: CountryName): (shown: string)
    ensures n.common != "" ==> shown == n.common
    ensures n.common == "" ==> shown == n.official
  {
    if n.common != "" then n.common else n.official
  }

  /** The search test of the favorites page: a named record whose display name or region includes the query, ignoring case. */
  predicate KeepsFavorite(c: Country, query: string)
  {
    Named(c)
    && (Contains(ToLower(DisplayName(c.name.value)), ToLower(query))
        || Contains(ToLower(c.region), ToLower(query)))
  }

  /** `filteredFavorites`. */
  function FilterFavorites(countries: seq<Country>, query: string): (r: seq<Country>)
    ensures IsSubsequence(r, countries)
    ensures forall c :: c in r <==> c in countries && KeepsFavorite(c, query)
    ensures forall c :: c in r ==> Named(c)
    ensures forall c :: multiset(r)[c] == if KeepsFavorite(c, query) then multiset(countries)[c] else 0
  {
    var keep := (c: Country) => KeepsFavorite(c, query);
    FilterIsSubsequence(countries, keep);
    assert forall c :: multiset(Filter(countries, keep))[c] == if keep(c) then multiset(countries)[c] else 0 by {
      forall c {
        FilterCount(countries, keep, c);
      }
    }
    Filter(countries, keep)
  }

  /** With an empty query every named record is shown and every nameless one is dropped. */
  lemma EmptyQueryKeepsNamed(countries: seq<Country>)
    ensures FilterFavorites(countries, "") == Filter(countries, Named)
  {
    forall i | 0 <= i < |countries| && Named(countries[i])
      ensures KeepsFavorite(countries[i], "")
    {
      ContainsEmpty(ToLower(DisplayName(countries[i].name.value)));
    }
    FilterAgree(countries, c => KeepsFavorite(c, ""), Named);
  }

  /** The favorites search depends on the query only through its lower-cased form. */
  lemma FavoritesSearchIgnoresCase(countries: seq<Country>, q1: string, q2: string)
    requires ToLower(q1) == ToLower(q2)
    ensures FilterFavorites(countries, q1) == FilterFavorites(countries, q2)
  {
    FilterAgree(countries, c => KeepsFavorite(c, q1), c => KeepsFavorite(c, q2));
  }

  /** `prevCountries.filter(country => country.cca3 !== code)`. */
  function DropCode(countries: seq<Country>, code: string): (r: seq<Country>)
    ensures IsSubsequence(r, countries)
    ensures forall c :: c in r <==> c in countries && c.cca3 != code
    ensures forall c :: multiset(r)[c] == if c.cca3 != code then multiset(countries)[c] else 0
  {
    var keep := (c: Country) => c.cca3 != code;
    FilterIsSubsequence(countries, keep);
    assert forall c :: multiset(Filter(countries, keep))[c] == if keep(c) then multiset(countries)[c] else 0 by {
      forall c {
        FilterCount(countries, keep, c);
      }
    }
    Filter(countries, keep)
  }

  /** Removing a code that is not a favorite changes neither the ids nor records that all belong to the ids. */
  lemma RemoveNonMember(ids: seq<string>, countries: seq<Country>, code: string)
    requires code !in ids
    requires forall i :: 0 <= i < |countries| ==> countries[i].cca3 in ids
    ensures Without(ids, code) == ids
    ensures DropCode(countries, code) == countries
  {
    WithoutAbsent(ids, code);
    FilterAllPass(countries, (c: Country) => c.cca3 != code);
  }

  /** Selected records always belong to the ids they were selected for, so removal of a non-member keeps them. */
  lemma SelectedThenRemoveNonMember(all: seq<Country>, ids: seq<string>, code: string)
    requires code !in ids
    ensures DropCode(SelectFavorites(all, ids), code) == SelectFavorites(all, ids)
  {
    var s := SelectFavorites(all, ids);
    assert forall i :: 0 <= i < |s| ==> s[i] in s;
    RemoveNonMember(ids, s, code);
  }

  /** What the country-data request gave: the parsed full list, or a failure (network or non-OK status). */
  datatype Response = Loaded(allCountries: seq<Country>) | RequestFailed

  class Page {
    const window: Window
    var favoriteIds: seq<string>
    var favoriteCountries: seq<Country>
    var isLoading: bool
    var searchQuery: string
    var error: Option<string>

    constructor (window: Window)
      ensures this.window == window
      ensures favoriteIds == [] && favoriteCountries == [] && isLoading && searchQuery == "" && error == None
    {
      this.window := window;
      favoriteIds := [];
      favoriteCountries := [];
      isLoading := true;
      searchQuery := "";
      error := None;
    }

    /**
     * `loadFavoriteIds`, with the synchronous start of `fetchCountryData`.
     * `fetchFor` is the id list a request was started for, if any.
     */
    method LoadFavoriteIds() returns (fetchFor: Option<seq<string>>)
      modifies this
      ensures ReadFavorites(window.session).ParseError? ==>
                error == Some(LoadError) && favoriteIds == [] && !isLoading && fetchFor == None
      ensures ReadFavorites(window.session).Parsed? ==>
                (var ids := ReadFavorites(window.session).ids;
                 && favoriteIds == ids && error == old(error)
                 && (|ids| == 0 ==> !isLoading && fetchFor == None)
                 && (|ids| > 0 ==> isLoading && fetchFor == Some(ids)))
      ensures favoriteCountries == old(favoriteCountries) && searchQuery == old(searchQuery)
    {
      var read := ReadFavorites(window.session);
      match read
      case ParseError =>
        error := Some(LoadError);
        favoriteIds := [];
        isLoading := false;
        fetchFor := None;
      case Parsed(ids) =>
        favoriteIds := ids;
        if |ids| > 0 {
          isLoading := true;
          fetchFor := Some(ids);
        } else {
          isLoading := false;
          fetchFor := None;
        }
    }

    /** The rest of `fetchCountryData(countryIds)` once the request settled. */
    method FetchSettled(countryIds: seq<string>, response: Response)
      modifies this
      ensures !isLoading
      ensures |countryIds| == 0 ==> favoriteCountries == [] && error == old(error)
      ensures |countryIds| > 0 && response.Loaded? ==>
                favoriteCountries == SelectFavorites(response.allCountries, countryIds) && error == old(error)
      ensures |countryIds| > 0 && response.RequestFailed? ==>
                favoriteCountries == old(favoriteCountries) && error == Some(DetailsError)
      ensures favoriteIds == old(favoriteIds) && searchQuery == old(searchQuery)
    {
      if |countryIds| == 0 {
        favoriteCountries := [];
        isLoading := false;
        return;
      }
      match response {
        case Loaded(all) =>
          favoriteCountries := SelectFavorites(all, countryIds);
        case RequestFailed =>
          error := Some(DetailsError);
      }
      isLoading := false;
    }

    /** Typing in the page's search box. */
    method SetSearchQuery(query: string)
      modifies this
      ensures searchQuery == query
      ensures favoriteIds == old(favoriteIds) && favoriteCountries == old(favoriteCountries)
      ensures isLoading == old(isLoading) && error == old(error)
    {
      searchQuery := query;
    }

    /**
     * `removeFavorite(code)`: the new list is written first, then the page
     * state changes, then one `'favoritesUpdated'` is dispatched explicitly.
     * While the header's wrapper is installed, the write itself dispatches one
     * more before that.
     */
    method RemoveFavorite(code: string)
      modifies this, window
      ensures favoriteIds == Without(old(favoriteIds), code)
      ensures favoriteCountries == DropCode(old(favoriteCountries), code)
      ensures window.session == old(window.session)[FavoritesKey := IdList(favoriteIds)]
      ensures window.trace == old(window.trace) + [SessionWrite(FavoritesKey, IdList(favoriteIds))]
                              + (if window.setItemWrapped then [Dispatched(FavoritesUpdated)] else [])
                              + [Dispatched(FavoritesUpdated)]
      ensures window.local == old(window.local) && window.setItemWrapped == old(window.setItemWrapped)
      ensures code !in old(favoriteIds) ==> favoriteIds == old(favoriteIds)
      ensures isLoading == old(isLoading) && error == old(error) && searchQuery == old(searchQuery)
    {
      var updated := Without(favoriteIds, code);
      window.SessionSetItem(FavoritesKey, IdList(updated));
      favoriteIds := updated;
      favoriteCountries := DropCode(favoriteCountries, code);
      window.DispatchEvent(FavoritesUpdated);
      if code !in old(favoriteIds) {
        WithoutAbsent(old(favoriteIds), code);
      }
    }

    /** The `storage` listener: it reruns `LoadFavoriteIds` only for the favorites key. */
    method OnStorageEvent(key: string) returns (fetchFor: Option<seq<string>>)
      modifies this
      ensures key != FavoritesKey ==> fetchFor == None && favoriteIds == old(favoriteIds)
                                      && isLoading == old(isLoading) && error == old(error)
      ensures key == FavoritesKey && ReadFavorites(window.session).ParseError? ==>
                error == Some(LoadError) && favoriteIds == [] && !isLoading && fetchFor == None
      ensures key == FavoritesKey && ReadFavorites(window.session).Parsed? ==>
                (var ids := ReadFavorites(window.session).ids;
                 && favoriteIds == ids && error == old(error)
                 && (|ids| == 0 ==> !isLoading && fetchFor == None)
                 && (|ids| > 0 ==> isLoading && fetchFor == Some(ids)))
      ensures favoriteCountries == old(favoriteCountries) && searchQuery == old(searchQuery)
    {
      fetchFor := None;
      if key == FavoritesKey {
        fetchFor := LoadFavoriteIds();
      }
    }

    /** The favorites the grid lists. */
    function FilteredFavorites(): seq<Country>
      reads this
    {
      FilterFavorites(favoriteCountries, searchQuery)
    }

    /** "No favorites yet". */
    predicate ShowsEmptyState()
      reads this
    {
      !isLoading && error.None? && |favoriteIds| == 0
    }

    /** "No results found". */
    predicate ShowsNoResults()
      reads this
    {
      !isLoading && error.None? && |favoriteIds| > 0 && |FilteredFavorites()| == 0
    }

    /** The grid of favorite cards. */
    predicate ShowsGrid()
      reads this
    {
      !isLoading && error.None? && |FilteredFavorites()| > 0
    }

    /** Once loading is over without an error the page is never blank, and "no results" never shows beside the grid or the empty state. */
    lemma ViewsCover()
      ensures !isLoading && error.None? ==> ShowsEmptyState() || ShowsNoResults() || ShowsGrid()
      ensures !(ShowsNoResults() && ShowsGrid())
      ensures !(ShowsNoResults() && ShowsEmptyState())
    {
    }
  }
}
