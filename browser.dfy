/**
 * The browser state the components share: `sessionStorage`, `localStorage`,
 * the events dispatched on `window`, and whether `sessionStorage.setItem` is
 * currently replaced by the header's notifying wrapper.
 */
module Browser {
  import opened Seqs

  /** The key under which the favorite country codes are kept in session storage. */
  const FavoritesKey: string := "favoriteCountries"

  /** The window event that announces a change of the favorites list. */
  const FavoritesUpdated: string := "favoritesUpdated"

  /** The key under which the theme is kept in local storage. */
  const ThemeKey: string := "theme"

  /** A session-storage entry: the JSON text of an id list, or text that `JSON.parse` rejects. */
  datatype StoredValue = IdList(ids: seq<string>) | Unparsable

  /** The outcome of `JSON.parse(sessionStorage.getItem('favoriteCountries')) || []`. */
  datatype ReadResult = Parsed(ids: seq<string>) | ParseError

  /** Something observable the page did to the browser, in the order it happened. */
  datatype Effect =
    | SessionWrite(key: string, value: StoredValue)
    | LocalWrite(key: string, text: string)
    | Dispatched(event: string)

  /** Reads the favorites list: an absent key reads as the empty list, a corrupt entry raises. */
  function ReadFavorites(session: map<string, StoredValue>): (r: ReadResult)
    ensures FavoritesKey !in session ==> r == Parsed([])
    ensures FavoritesKey in session && session[FavoritesKey].IdList? ==> r == Parsed(session[FavoritesKey].ids)
    ensures r.ParseError? <==> FavoritesKey in session && session[FavoritesKey].Unparsable?
  {
    if FavoritesKey !in session then Parsed([])
    else match session[FavoritesKey]
      case IdList(ids) => Parsed(ids)
      case Unparsable => ParseError
  }

  /** Writing a list and reading it back gives the list. */
  lemma WriteThenRead(session: map<string, StoredValue>, ids: seq<string>)
    ensures ReadFavorites(session[FavoritesKey := IdList(ids)]) == Parsed(ids)
  {
  }

  /** `ids.filter(id => id !== code)`: the stored list with every occurrence of `code` removed. */
  function Without(ids: seq<string>, code: string): (r: seq<string>)
    ensures code !in r
    ensures forall id :: id in r <==> id in ids && id != code
    ensures IsSubsequence(r, ids)
    ensures forall id :: id != code ==> multiset(r)[id] == multiset(ids)[id]
    ensures |r| == |ids| - multiset(ids)[code]
  {
    var keep := (id: string) => id != code;
    FilterIsSubsequence(ids, keep);
    FilterDropsOnly(ids, keep, code);
    assert forall id :: id != code ==> multiset(Filter(ids, keep))[id] == multiset(ids)[id] by {
      forall id | id != code {
        FilterCount(ids, keep, id);
      }
    }
    Filter(ids, keep)
  }

  /** Removing a code a second time changes nothing. */
  lemma WithoutTwice(ids: seq<string>, code: string)
    ensures Without(Without(ids, code), code) == Without(ids, code)
  {
    FilterIdempotent(ids, (id: string) => id != code);
  }

  /** Removing a code that is not in the list leaves the list as it is. */
  lemma WithoutAbsent(ids: seq<string>, code: string)
    requires code !in ids
    ensures Without(ids, code) == ids
  {
    FilterAllPass(ids, (id: string) => id != code);
  }

  class Window {
    var session: map<string, StoredValue>
    var local: map<string, string>
    /** True while `sessionStorage.setItem` is the header's wrapper rather than the original. */
    var setItemWrapped: bool
    /** Every storage write and event dispatch so far, oldest first. */
    var trace: seq<Effect>

    constructor (session: map<string, StoredValue>, local: map<string, string>)
      ensures this.session == session && this.local == local
      ensures !setItemWrapped && trace == []
    {
      this.session := session;
      this.local := local;
      setItemWrapped := false;
      trace := [];
    }

    /** `sessionStorage.setItem(key, value)`: the original write, then, when wrapped and the key is the favorites key, one `'favoritesUpdated'` dispatch. */
    method SessionSetItem(key: string, value: StoredValue)
      modifies this
      ensures session == old(session)[key := value]
      ensures local == old(local) && setItemWrapped == old(setItemWrapped)
      ensures trace == old(trace) + [SessionWrite(key, value)]
                       + (if setItemWrapped && key == FavoritesKey then [Dispatched(FavoritesUpdated)] else [])
    {
      session := session[key := value];
      trace := trace + [SessionWrite(key, value)];
      if setItemWrapped && key == FavoritesKey {
        trace := trace + [Dispatched(FavoritesUpdated)];
      }
    }

    /** `localStorage.setItem(key, text)`. */
    method LocalSetItem(key: string, text: string)
      modifies this
      ensures local == old(local)[key := text]
      ensures session == old(session) && setItemWrapped == old(setItemWrapped)
      ensures trace == old(trace) + [LocalWrite(key, text)]
    {
      local := local[key := text];
      trace := trace + [LocalWrite(key, text)];
    }

    /** `window.dispatchEvent(new Event(name))`. */
    method DispatchEvent(name: string)
      modifies this
      ensures trace == old(trace) + [Dispatched(name)]
      ensures session == old(session) && local == old(local) && setItemWrapped == old(setItemWrapped)
    {
      trace := trace + [Dispatched(name)];
    }

    /** Replaces `sessionStorage.setItem` by the notifying wrapper. */
    method WrapSessionSetItem()
      modifies this
      ensures setItemWrapped
      ensures session == old(session) && local == old(local) && trace == old(trace)
    {
      setItemWrapped := true;
    }

    /** Puts the original `sessionStorage.setItem` back. */
    method RestoreSessionSetItem()
      modifies this
      ensures !setItemWrapped
      ensures session == old(session) && local == old(local) && trace == old(trace)
    {
      setItemWrapped := false;
    }
  }
}
