/**
 * `Header`: the theme switch with its stored preference, the favorites count
 * shown on the navigation, and the active-link and badge rules.
 */
module Header {
  import opened Wrappers
  import opened Browser
  import opened Text

  /** The stored theme values. */
  const Dark: string := "dark"
  const Light: string := "light"

  /** The navigation paths. */
  const HomePath: string := "/"
  const FavoritesPath: string := "/favorites"

  /** The initial `darkMode`: a non-empty stored value decides (only `'dark'` is dark); otherwise the system preference. */
  function HydrateDarkMode(stored: Option<string>, systemPrefersDark: bool): (dark: bool)
    ensures stored == Some(Dark) ==> dark
    ensures stored.Some? && stored.value != "" && stored.value != Dark ==> !dark
    ensures (stored == None || stored == Some("")) ==> dark == systemPrefersDark
  {
    match stored
    case Some(s) => if s != "" then s == Dark else systemPrefersDark
    case None => systemPrefersDark
  }

  /** The value the theme effect stores; hydrating from it gives back the same mode, whatever the system prefers. */
  function ThemeValue(dark: bool): (text: string)
    ensures text == Dark || text == Light
    ensures forall systemPrefersDark :: HydrateDarkMode(Some(text), systemPrefersDark) == dark
  {
    if dark then Dark else Light
  }

  /** `favorites.length` after a successful read: 0 when the key is absent. */
  function StoredCount(session: map<string, StoredValue>): (n: nat)
    requires ReadFavorites(session).Parsed?
    ensures FavoritesKey !in session ==> n == 0
    ensures FavoritesKey in session ==> n == |session[FavoritesKey].ids|
  {
    |ReadFavorites(session).ids|
  }

  /** `NavLinks.isActive(path)` for the current `pathname`. */
  predicate IsActive(path: string, pathname: string)
  {
    if path == HomePath then pathname == HomePath else StartsWith(pathname, path)
  }

  /** The home link is active only on the home page, and the two links are never active together. */
  lemma ActiveLinks(pathname: string)
    ensures IsActive(HomePath, pathname) <==> pathname == "/"
    ensures IsActive(FavoritesPath, pathname) <==> |pathname| >= 10 && pathname[..10] == "/favorites"
    ensures !(IsActive(HomePath, pathname) && IsActive(FavoritesPath, pathname))
  {
  }

  /** An entry of the navigation bar; only the favorites link carries a count. */
  datatype NavLink = NavLink(path: string, caption: string, count: Option<int>)

  /** The two navigation links, home first. */
  function NavLinks(favoriteCount: nat): (links: seq<NavLink>)
    ensures |links| == 2
    ensures links[0].path == HomePath && links[0].count == None
    ensures links[1].path == FavoritesPath && links[1].count == Some(favoriteCount)
  {
    [NavLink(HomePath, "Home", None), NavLink(FavoritesPath, "Favorites", Some(favoriteCount))]
  }

  /** `link.count > 0 && link.path === '/favorites'`; an absent count is not greater than 0. */
  predicate ShowsBadge(link: NavLink)
  {
    link.count.Some? && link.count.value > 0 && link.path == FavoritesPath
  }

  /** Of the rendered links, a badge shows exactly on the favorites link and exactly when the count is positive. */
  lemma BadgeRule(favoriteCount: nat, i: nat)
    requires i < 2
    ensures ShowsBadge(NavLinks(favoriteCount)[i]) <==> NavLinks(favoriteCount)[i].path == FavoritesPath && favoriteCount > 0
  {
  }

  /** One record of a `MutationObserver` batch: whether it is a `childList` change, and how many nodes it added. */
  datatype Mutation = Mutation(childList: bool, addedNodes: nat)

  /** A record that makes the observer re-check. */
  predicate AddsChildren(m: Mutation)
  {
    m.childList && m.addedNodes > 0
  }

  /** Some record of the batch makes the observer re-check. */
  predicate AnyAddsChildren(mutations: seq<Mutation>)
  {
    exists i :: 0 <= i < |mutations| && AddsChildren(mutations[i])
  }

  class HeaderState {
    const window: Window
    var darkMode: bool
    var favoriteCount: nat

    /** The first render: the mode is hydrated from local storage and the count starts at 0. */
    constructor (window: Window, systemPrefersDark: bool)
      ensures this.window == window && favoriteCount == 0
      ensures darkMode == HydrateDarkMode(if ThemeKey in window.local then Some(window.local[ThemeKey]) else None, systemPrefersDark)
    {
      this.window := window;
      darkMode := HydrateDarkMode(if ThemeKey in window.local then Some(window.local[ThemeKey]) else None, systemPrefersDark);
      favoriteCount := 0;
    }

    /** The theme effect: stores `'dark'` or `'light'` for the current mode. */
    method PersistTheme()
      modifies window
      ensures window.local == old(window.local)[ThemeKey := ThemeValue(darkMode)]
      ensures window.trace == old(window.trace) + [LocalWrite(ThemeKey, ThemeValue(darkMode))]
      ensures window.session == old(window.session) && window.setItemWrapped == old(window.setItemWrapped)
      ensures HydrateDarkMode(Some(window.local[ThemeKey]), false) == darkMode
      ensures HydrateDarkMode(Some(window.local[ThemeKey]), true) == darkMode
    {
      window.LocalSetItem(ThemeKey, ThemeValue(darkMode));
    }

    /** The theme button: `setDarkMode(prev => !prev)`. */
    method ToggleDarkMode()
      modifies this
      ensures darkMode == !old(darkMode) && favoriteCount == old(favoriteCount)
    {
      darkMode := !darkMode;
    }

    /** `checkFavorites`: the count becomes the stored list's length; when the stored text does not parse it throws and the count stays. */
    method CheckFavorites() returns (ok: bool)
      modifies this
      ensures ok <==> ReadFavorites(window.session).Parsed?
      ensures ok ==> favoriteCount == StoredCount(window.session)
      ensures !ok ==> favoriteCount == old(favoriteCount)
      ensures darkMode == old(darkMode)
    {
      var read := ReadFavorites(window.session);
      ok := read.Parsed?;
      if ok {
        favoriteCount := |read.ids|;
      }
    }

    /** The `storage` listener: it re-checks only for the favorites key. */
    method OnStorageEvent(key: string)
      modifies this
      ensures key == FavoritesKey && ReadFavorites(window.session).Parsed? ==> favoriteCount == StoredCount(window.session)
      ensures !(key == FavoritesKey && ReadFavorites(window.session).Parsed?) ==> favoriteCount == old(favoriteCount)
      ensures darkMode == old(darkMode)
    {
      if key == FavoritesKey {
        var _ := CheckFavorites();
      }
    }

    /** The observer callback: it re-checks once, at the first record of a `childList` change that added nodes. */
    method OnMutations(mutations: seq<Mutation>)
      modifies this
      ensures AnyAddsChildren(mutations) && ReadFavorites(window.session).Parsed? ==> favoriteCount == StoredCount(window.session)
      ensures AnyAddsChildren(mutations) && ReadFavorites(window.session).ParseError? ==> favoriteCount == old(favoriteCount)
      ensures !AnyAddsChildren(mutations) ==> favoriteCount == old(favoriteCount)
      ensures darkMode == old(darkMode)
    {
      var k := 0;
      while k < |mutations|
        invariant 0 <= k <= |mutations|
        invariant forall i :: 0 <= i < k ==> !AddsChildren(mutations[i])
        invariant favoriteCount == old(favoriteCount) && darkMode == old(darkMode)
      {
        if AddsChildren(mutations[k]) {
          var _ := CheckFavorites();
          return;
        }
        k := k + 1;
      }
    }

    /**
     * The subscription effect on mount: the first check, then the notifying
     * `setItem` wrapper is installed. When the first check throws, the effect
     * stops there and the wrapper is never installed.
     */
    method Mount() returns (ok: bool)
      modifies this, window
      ensures window.setItemWrapped == (ok || old(window.setItemWrapped))
      ensures window.session == old(window.session) && window.local == old(window.local) && window.trace == old(window.trace)
      ensures ok <==> ReadFavorites(window.session).Parsed?
      ensures ok ==> favoriteCount == StoredCount(window.session)
      ensures !ok ==> favoriteCount == old(favoriteCount)
      ensures darkMode == old(darkMode)
    {
      ok := CheckFavorites();
      if ok {
        window.WrapSessionSetItem();
      }
    }

    /** The effect's cleanup: the original `setItem` is back. */
    method Unmount()
      modifies window
      ensures !window.setItemWrapped
      ensures window.session == old(window.session) && window.local == old(window.local) && window.trace == old(window.trace)
    {
      window.RestoreSessionSetItem();
    }
  }

  /** A reload after a toggle: hydrating from what the theme effect stored restores the toggled mode. */
  method ThemeReloadScenario(stored: Option<string>, systemPrefersDark: bool, systemAtReload: bool)
    returns (before: bool, afterReload: bool)
    ensures before == !HydrateDarkMode(stored, systemPrefersDark)
    ensures afterReload == before
  {
    var window := new Window(map[], if stored.Some? then map[ThemeKey := stored.value] else map[]);
    var header := new HeaderState(window, systemPrefersDark);
    header.ToggleDarkMode();
    header.PersistTheme();
    before := header.darkMode;
    var reloaded := new HeaderState(window, systemAtReload);
    afterReload := reloaded.darkMode;
  }
}
