# Rest Countries — verified model of the client-side state layer

Rest Countries is a React viewer for the REST Countries API. Under its markup sit a few pieces of sequential logic, and this project models them in Dafny:

- the country provider's filter, which derives the shown list from the fetched list, the search text and the selected region;
- the favorites list kept in `sessionStorage` under `favoriteCountries`. The country card reads and rewrites it, the favorites page reads, filters and rewrites it, and the header counts it and wraps `sessionStorage.setItem` so that writes announce themselves with a `favoritesUpdated` event;
- the theme preference in `localStorage['theme']`, with its fallback to the system preference;
- the header's active-link and badge rules;
- the search box and the region dropdown;
- the country detail page's text helpers and its request outcome.

The browser is one `Browser.Window` object. It holds the two storages as maps and a `trace` in which every storage write and event dispatch is appended in order, so claims about order ("written before notified") are statements about that trace. React state that a component updates in place is a class with those fields (`CountryContext.Provider`, `CountryCard.Card`, `FavoritesPage.Page`, `Header.HeaderState`, `SearchFilter.SearchFilter`, `CountryDetail.DetailPage`). The derivations the components compute from that state are functions, and the lemmas beside them state what the derivations mean.

Files: `wrappers.dfy` (Option), `text.dfy` (lower-casing, `includes`, `startsWith`, `join`), `seqs.dfy` (`Array.filter` and subsequences), `countries.dfy` (the country record), `browser.dfy` (storage, events, the `setItem` wrapper flag), and one file per component: `country_context.dfy`, `search_filter.dfy`, `country_card.dfy`, `favorites_page.dfy`, `header.dfy`, `country_detail.dfy`.

## Behaviour worth knowing

The code behaves as follows, and the model keeps each of these behaviours:

- Favorites are a list, so a code can occur twice. The card appends or removes based on its own `isFavorite` flag. Two clicks before the flag flips append the code twice (`CountryCard.StaleAddDuplicates`, `CountryCard.DoubleClickScenario`).
- The search text and the region live in plain component state. They reset when the page is reloaded.
- The name filter runs before the region filter. The two orders give the same list (`CountryContext.RegionThenNameSame`).
- Stored text that does not parse makes the card's handlers and the header's check throw. When the header's first check throws, its mount effect stops and the `setItem` wrapper is never installed (`Header.HeaderState.Mount`). The favorites page catches the error and shows it. An absent key reads as `[]`.
- Within one tab, two cards toggling different countries do not lose a write. Each click re-reads storage (`CountryCard.TwoCardsScenario`).
- `sessionStorage.setItem` is monkey-patched by the header, and the model keeps that shape. The header is in the app's layout, so the wrapper is normally installed. While it is, `removeFavorite` dispatches two `favoritesUpdated` events: one from the wrapped write and one explicit. The model states both (`FavoritesPage.Page.RemoveFavorite`).

The detail page never clears `error` when the code changes. Once one request has failed, a later successful one still shows the error panel (`CountryDetail.StaleErrorScenario`). An empty error message is falsy, so a request that throws with an empty message leaves the previously loaded country on screen (`CountryDetail.EmptyMessageScenario`).

## Model

| member | source | states |
|---|---|---|
| `Text.ToLower` | src/context/CountryContext.jsx:38 | lower-cases every character in place and keeps the length |
| `Text.ToLowerForgetsCase` | src/context/CountryContext.jsx:38 | lower-casing an upper-cased text gives the same result as lower-casing the original |
| `Text.ToLowerIdempotent` | src/context/CountryContext.jsx:38 | lower-casing twice is lower-casing once |
| `Text.StartsWith` | src/components/Header.jsx:223 | models `startsWith`: the prefix is no longer than the text and equals its front; its use is stated by `Header.ActiveLinks` |
| `Text.Contains` | src/context/CountryContext.jsx:38 | models `includes`: the needle is a prefix of the text or of some suffix of it; `Text.ContainsAt` states it as an occurrence |
| `Text.ContainsAt` | src/context/CountryContext.jsx:38 | `includes` holds iff the needle occurs at some position of the text |
| `Text.ContainsEmpty` | src/components/FavoritesPage.jsx:93-94 | every text includes the empty query |
| `Text.Join` | src/pages/CountryDetail.jsx:33 | models `join`: the parts with the separator between each pair of neighbours; `Text.JoinSnoc`, `Text.JoinContainsEach` and `Text.JoinLength` state its properties |
| `Text.JoinSnoc` | src/pages/CountryDetail.jsx:33 | `join` builds left to right: one more part adds the separator and the part at the end |
| `Text.JoinContainsEach` | src/pages/CountryDetail.jsx:33 | every joined part occurs in the joined text |
| `Text.JoinLength` | src/pages/CountryDetail.jsx:43 | the joined text is the parts' lengths plus one separator between each pair of neighbours |
| `Seqs.Filter` | src/context/CountryContext.jsx:37-45 | the filter's result holds only input elements that pass, and every passing element |
| `Seqs.FilterIsSubsequence` | src/context/CountryContext.jsx:37-45 | a filter keeps the relative order of the elements it keeps |
| `Seqs.FilterAllPass` | src/context/CountryContext.jsx:34-48 | a filter that every element passes returns its input |
| `Seqs.FilterNonePass` | src/components/FavoritesPage.jsx:73-75 | a filter that no element passes returns the empty list |
| `Seqs.FilterAgree` | src/context/CountryContext.jsx:37-45 | filters whose tests agree on every element give the same list |
| `Seqs.FilterFilter` | src/context/CountryContext.jsx:34-48 | two filters in a row equal one filter with both tests |
| `Seqs.FilterAppend` | src/components/CountryCard.jsx:28-31 | filtering a concatenation concatenates the filtered parts |
| `Seqs.FilterIdempotent` | src/components/FavoritesPage.jsx:99 | filtering again with the same test changes nothing |
| `Seqs.FilterCount` | src/components/FavoritesPage.jsx:99 | a filter keeps every copy of an element that passes and none of one that fails |
| `Seqs.FilterDropsOnly` | src/components/CountryCard.jsx:28 | a filter that rejects exactly one value shortens the list by the number of its copies |
| `Seqs.SubsequenceReflexive` | src/context/CountryContext.jsx:21 | a list is a subsequence of itself, so the provider's invariant holds after a fetch |
| `Browser.ReadFavorites` | src/components/CountryCard.jsx:23 | an absent key reads as `[]`, a stored list reads as itself, unparsable text raises |
| `Browser.WriteThenRead` | src/components/CountryCard.jsx:35 | reading right after writing a list gives that list |
| `Browser.Without` | src/components/FavoritesPage.jsx:99 | the result has no occurrence of the code, keeps every copy of every other id in order, and is shorter by the number of copies of the code |
| `Browser.WithoutAbsent` | src/components/FavoritesPage.jsx:99 | removing a code that is not stored leaves the list unchanged |
| `Browser.WithoutTwice` | src/components/FavoritesPage.jsx:99 | removing a code a second time changes nothing |
| `Browser.Window.constructor` | src/components/Header.jsx:83 | the window starts with the given storages, the original `setItem` and an empty trace |
| `Browser.Window.SessionSetItem` | src/components/Header.jsx:84-93 | performs the original write first; then it dispatches `favoritesUpdated` exactly when the wrapper is installed and the key is `favoriteCountries` |
| `Browser.Window.LocalSetItem` | src/components/Header.jsx:20 | writes one key of local storage and appends that write to the trace |
| `Browser.Window.DispatchEvent` | src/components/FavoritesPage.jsx:107-108 | appends one dispatch to the trace and changes no storage |
| `Browser.Window.WrapSessionSetItem` | src/components/Header.jsx:83-84 | installs the notifying wrapper without touching storage |
| `Browser.Window.RestoreSessionSetItem` | src/components/Header.jsx:103 | the cleanup reinstates the original `setItem` |
| `CountryContext.FilteredCountries` | src/context/CountryContext.jsx:33-49 | with no criteria the result is the list itself; otherwise it is an order-preserving subsequence holding exactly the countries that pass every active criterion |
| `CountryContext.NameMatches` | src/context/CountryContext.jsx:37-39 | the name test: the record has a name whose lower-cased common form includes the lower-cased term |
| `CountryContext.RegionMatches` | src/context/CountryContext.jsx:43-45 | the region test: the record's region equals the selection |
| `CountryContext.Matches` | src/context/CountryContext.jsx:36-46 | the combined test, where an empty criterion passes everything; `CountryContext.FilteredIsOnePass` ties the two-stage filter to it |
| `CountryContext.FilteredIsOnePass` | src/context/CountryContext.jsx:34-48 | the two-stage filter equals one filter with the combined test |
| `CountryContext.SearchIgnoresCase` | src/context/CountryContext.jsx:38 | two search texts with the same lower-cased form give the same list |
| `CountryContext.SearchCaseVariants` | src/context/CountryContext.jsx:38 | typing the search in upper or lower case does not change the list |
| `CountryContext.RegionThenNameSame` | src/context/CountryContext.jsx:36-46 | applying the region filter first gives the same list |
| `CountryContext.SearchWithRegionExample` | src/context/CountryContext.jsx:36-46 | "ger" within Europe keeps Germany and drops Ghana |
| `CountryContext.SearchOnlyExample` | src/context/CountryContext.jsx:36-40 | "g" with no region keeps Germany and Ghana, in order |
| `CountryContext.Provider.constructor` | src/context/CountryContext.jsx:8-13 | starts with empty lists, loading, no error and no criteria |
| `CountryContext.Provider.BeginFetch` | src/context/CountryContext.jsx:18 | loading becomes true and nothing else changes |
| `CountryContext.Provider.FetchSucceeded` | src/context/CountryContext.jsx:19-22 | both lists become the data and loading ends |
| `CountryContext.Provider.FetchFailed` | src/context/CountryContext.jsx:23-26 | the error becomes the message and loading ends; the lists stay |
| `CountryContext.Provider.SetSearchTerm` | src/context/CountryContext.jsx:12 | sets only the search text |
| `CountryContext.Provider.SetSelectedRegion` | src/context/CountryContext.jsx:13 | sets only the region |
| `CountryContext.Provider.ApplyFilter` | src/context/CountryContext.jsx:33-49 | the shown list becomes the filter of the current state; the other fields stay |
| `SearchFilter.Label` | src/components/SearchFilter.jsx:62 | shows the region when one is selected, else "Filter by Region"; the label is never empty |
| `SearchFilter.LabelDistinguishes` | src/components/SearchFilter.jsx:10 | over the selectable regions, equal labels mean equal selections |
| `SearchFilter.ShowsClearButton` | src/components/SearchFilter.jsx:45 | the clear button is rendered exactly when the search text is non-empty; `SearchFilter.SearchFilter.ClearSearch` states that clearing hides it |
| `SearchFilter.SearchFilter.constructor` | src/components/SearchFilter.jsx:7 | the dropdown starts closed |
| `SearchFilter.SearchFilter.ToggleDropdown` | src/components/SearchFilter.jsx:58 | flips the open flag |
| `SearchFilter.SearchFilter.MouseDown` | src/components/SearchFilter.jsx:14-18 | a press outside closes the dropdown; a press inside leaves it as it was |
| `SearchFilter.SearchFilter.ChooseAllRegions` | src/components/SearchFilter.jsx:74-77 | clears the region and closes the dropdown; the region stays one of the allowed values; the provider's lists, loading flag and error stay |
| `SearchFilter.SearchFilter.ChooseRegion` | src/components/SearchFilter.jsx:86-89 | selects one of the five regions and closes the dropdown; the region stays one of the allowed values; the provider's lists, loading flag and error stay |
| `SearchFilter.SearchFilter.TypeSearch` | src/components/SearchFilter.jsx:42 | sets the search text and keeps the region; the provider's lists, loading flag and error stay |
| `SearchFilter.SearchFilter.ClearSearch` | src/components/SearchFilter.jsx:27-29 | empties the search text, which hides the clear button; the provider's lists, loading flag and error stay |
| `CountryCard.ToggledList` | src/components/CountryCard.jsx:25-32 | when the flag says favorite: no occurrence of the code, every copy of every other id kept in order, shorter by the copies of the code; otherwise: the stored list with the code appended |
| `CountryCard.AddThenRemoveRestores` | src/components/CountryCard.jsx:26-31 | adding an absent code and then removing it restores the stored list |
| `CountryCard.StaleAddDuplicates` | src/components/CountryCard.jsx:29-31 | two adds computed from the same stale flag store the code twice |
| `CountryCard.Card.constructor` | src/components/CountryCard.jsx:6-7 | starts not favorite, with no animation and no pending timers |
| `CountryCard.Card.CheckMembership` | src/components/CountryCard.jsx:10-13 | the flag becomes whether the code is stored, a missing key counting as empty; unparsable text leaves the flag |
| `CountryCard.Card.ToggleFavorite` | src/components/CountryCard.jsx:16-42 | sets the animation from the flag, then writes the whole toggled list under `favoriteCountries` only, then schedules the flip of the captured flag; a parse failure stops after the animation |
| `CountryCard.Card.RunTimer` | src/components/CountryCard.jsx:38-41 | the first timer sets the flag to the captured value and schedules the reset; the second returns the animation to idle |
| `CountryCard.AddRemoveScenario` | src/components/CountryCard.jsx:26-41 | add, timer, remove: the list gains the code, then is back to the original |
| `CountryCard.TwoCardsScenario` | src/components/CountryCard.jsx:23-35 | two cards clicked in turn store both codes in click order |
| `CountryCard.DoubleClickScenario` | src/components/CountryCard.jsx:26-39 | two clicks before the timer store the code twice |
| `Header.HydrateDarkMode` | src/components/Header.jsx:5-9 | a stored `'dark'` gives dark; any other non-empty value gives light; an absent or empty value gives the system preference |
| `Header.ThemeValue` | src/components/Header.jsx:16-25 | writes `'dark'` or `'light'`, and hydrating from that value gives the same mode whatever the system prefers |
| `Header.StoredCount` | src/components/Header.jsx:38-41 | is the stored list's length, or 0 when the key is absent |
| `Header.ActiveLinks` | src/components/Header.jsx:221-224 | Home is active iff the path is `/`; Favorites is active iff the path starts with `/favorites`; the two are never active together |
| `Header.IsActive` | src/components/Header.jsx:221-224 | models `isActive`: Home matches only `/` exactly, other links match by prefix; `Header.ActiveLinks` states both links' rules |
| `Header.NavLinks` | src/components/Header.jsx:226-229 | lists Home without a count, then Favorites with the count |
| `Header.BadgeRule` | src/components/Header.jsx:253 | a badge shows exactly on the favorites link, and only when the count is positive |
| `Header.ShowsBadge` | src/components/Header.jsx:253 | a link shows a badge when it has a positive count and is the favorites link; `Header.BadgeRule` states it over the rendered links |
| `Header.AddsChildren` | src/components/Header.jsx:66 | a mutation record is a child-list change that added at least one node |
| `Header.HeaderState.constructor` | src/components/Header.jsx:5-12 | the mode is hydrated from local storage and the count starts at 0 |
| `Header.HeaderState.PersistTheme` | src/components/Header.jsx:16-25 | stores the current mode's value under `theme`, and re-hydrating gives the current mode back |
| `Header.HeaderState.ToggleDarkMode` | src/components/Header.jsx:107-111 | negates the mode |
| `Header.HeaderState.CheckFavorites` | src/components/Header.jsx:38-41 | succeeds iff the stored text parses; on success the count becomes the stored count, on failure it stays |
| `Header.HeaderState.OnStorageEvent` | src/components/Header.jsx:52-56 | re-checks only for the `favoriteCountries` key |
| `Header.HeaderState.OnMutations` | src/components/Header.jsx:63-71 | re-checks iff some record of the batch is a child-list change that added nodes; the count changes only when such a check parses |
| `Header.HeaderState.Mount` | src/components/Header.jsx:37-93 | performs the first check; installs the wrapper iff that check parses, since a throw ends the effect; writes nothing |
| `Header.HeaderState.Unmount` | src/components/Header.jsx:96-104 | restores the original `setItem` |
| `Header.ThemeReloadScenario` | src/components/Header.jsx:5-25 | toggle, persist, reload: the reloaded header shows the toggled mode |
| `FavoritesPage.SelectFavorites` | src/components/FavoritesPage.jsx:73-75 | holds exactly the API records whose code is a favorite, every copy of each, in API order |
| `FavoritesPage.SelectNone` | src/components/FavoritesPage.jsx:73-75 | without favorite ids no record is selected |
| `FavoritesPage.DisplayName` | src/components/FavoritesPage.jsx:90 | is the common name, or the official one when the common name is empty |
| `FavoritesPage.KeepsFavorite` | src/components/FavoritesPage.jsx:88-94 | the favorites search test: a named record whose display name or region includes the query, ignoring case |
| `FavoritesPage.FilterFavorites` | src/components/FavoritesPage.jsx:87-95 | keeps a record iff it has a name and its display name or region contains the query, ignoring case; it keeps the order and drops every nameless record; every copy of a kept record survives |
| `FavoritesPage.EmptyQueryKeepsNamed` | src/components/FavoritesPage.jsx:87-95 | an empty query shows exactly the named records |
| `FavoritesPage.FavoritesSearchIgnoresCase` | src/components/FavoritesPage.jsx:93-94 | queries with the same lower-cased form show the same records |
| `FavoritesPage.DropCode` | src/components/FavoritesPage.jsx:102-104 | drops exactly the records with the given code, keeps every copy of the others, and keeps the order |
| `FavoritesPage.RemoveNonMember` | src/components/FavoritesPage.jsx:98-104 | removing a non-member leaves the ids unchanged, and records whose codes are all ids unchanged |
| `FavoritesPage.SelectedThenRemoveNonMember` | src/components/FavoritesPage.jsx:73-75 | records selected for some ids survive the removal of any code outside those ids |
| `FavoritesPage.Page.constructor` | src/components/FavoritesPage.jsx:5-9 | starts empty, loading, with no query and no error |
| `FavoritesPage.Page.LoadFavoriteIds` | src/components/FavoritesPage.jsx:12-30 | with an absent key or an empty list: no ids, not loading, no request. With a stored list: those ids, loading, and a request for them. With unparsable text: the load error, no ids, not loading |
| `FavoritesPage.Page.FetchSettled` | src/components/FavoritesPage.jsx:53-84 | on success: the selected records; on failure: the details error; loading ends either way |
| `FavoritesPage.Page.SetSearchQuery` | src/components/FavoritesPage.jsx:128 | sets only the query |
| `FavoritesPage.Page.RemoveFavorite` | src/components/FavoritesPage.jsx:98-109 | writes the ids minus the code, then updates the ids and drops that code's records, then dispatches one explicit event (one more when the write is wrapped); a non-member leaves the ids as they were |
| `FavoritesPage.Page.OnStorageEvent` | src/components/FavoritesPage.jsx:40-44 | for the `favoriteCountries` key, runs the whole reload: ids, loading, request and the load error, as `LoadFavoriteIds` states; for any other key nothing changes |
| `FavoritesPage.Page.FilteredFavorites` | src/components/FavoritesPage.jsx:87-95 | the grid's records: `FilterFavorites` of the page's records and query |
| `FavoritesPage.Page.ShowsEmptyState` | src/components/FavoritesPage.jsx:170 | "No favorites yet": loaded without an error and no ids |
| `FavoritesPage.Page.ShowsNoResults` | src/components/FavoritesPage.jsx:214 | "No results found": loaded without an error, some ids, and nothing passes the search |
| `FavoritesPage.Page.ShowsGrid` | src/components/FavoritesPage.jsx:246 | the grid: loaded without an error and some record passes the search; `FavoritesPage.Page.ViewsCover` relates the three views |
| `FavoritesPage.Page.ViewsCover` | src/components/FavoritesPage.jsx:170-246 | once loading is over without an error, "empty", "no results" or the grid shows; "no results" never shows with the grid or with "empty" |
| `CountryDetail.Values` | src/pages/CountryDetail.jsx:33 | gives the dictionary's values in insertion order |
| `CountryDetail.CurrencyNames` | src/pages/CountryDetail.jsx:43 | gives each currency's name in order |
| `CountryDetail.GetLanguages` | src/pages/CountryDetail.jsx:32-33 | `'N/A'` without an object, `''` for an empty one, the language itself for one entry |
| `CountryDetail.LanguagesInOrder` | src/pages/CountryDetail.jsx:33 | one more language adds `', '` and its name at the end |
| `CountryDetail.LanguagesListed` | src/pages/CountryDetail.jsx:33 | every language appears in the text |
| `CountryDetail.GetCurrencies` | src/pages/CountryDetail.jsx:42-43 | `'N/A'` without an object, `''` for an empty one, the currency's name for one entry |
| `CountryDetail.CurrenciesInOrder` | src/pages/CountryDetail.jsx:43 | one more currency adds `', '` and its name at the end |
| `CountryDetail.CurrenciesListed` | src/pages/CountryDetail.jsx:43 | every currency's name appears in the text |
| `CountryDetail.GetNativeName` | src/pages/CountryDetail.jsx:35-40 | is the first native name's common form, or the common name when there is none |
| `CountryDetail.FirstOrNotAvailable` | src/pages/CountryDetail.jsx:109-112 | is the first element when it is a non-empty string, else `'N/A'` |
| `CountryDetail.SubregionText` | src/pages/CountryDetail.jsx:108 | is the subregion, or `'N/A'` when it is empty |
| `CountryDetail.ShowsBorders` | src/pages/CountryDetail.jsx:118 | the border section renders exactly when `borders` is a non-empty list |
| `CountryDetail.BorderLinks` | src/pages/CountryDetail.jsx:118-125 | no links without borders; otherwise one link per code, in order, to `/country/<code>` |
| `CountryDetail.DetailPage.constructor` | src/pages/CountryDetail.jsx:7-9 | starts loading, with no country and no error |
| `CountryDetail.DetailPage.Navigate` | src/pages/CountryDetail.jsx:6 | changes only the route's code |
| `CountryDetail.DetailPage.BeginFetch` | src/pages/CountryDetail.jsx:15 | loading becomes true; the country and the error are not reset |
| `CountryDetail.DetailPage.FetchResolved` | src/pages/CountryDetail.jsx:16-26 | a first element becomes the country; no data or an empty list sets "Country not found"; loading ends either way |
| `CountryDetail.DetailPage.FetchRejected` | src/pages/CountryDetail.jsx:22-26 | the error becomes the message and loading ends |
| `CountryDetail.DetailPage.HasMessage` | src/pages/CountryDetail.jsx:63 | `error` is truthy: a message is set and it is non-empty |
| `CountryDetail.DetailPage.ShowsLoading` | src/pages/CountryDetail.jsx:45 | the skeleton renders exactly while loading |
| `CountryDetail.DetailPage.ShowsError` | src/pages/CountryDetail.jsx:63 | the error panel: not loading, and a truthy error or no country |
| `CountryDetail.DetailPage.ShowsDetails` | src/pages/CountryDetail.jsx:79 | the details: not loading, no truthy error, and a country; `CountryDetail.DetailPage.OneView` states that exactly one view renders |
| `CountryDetail.DetailPage.ErrorText` | src/pages/CountryDetail.jsx:67 | is the error message when it is non-empty, and "Country not found" otherwise |
| `CountryDetail.DetailPage.OneView` | src/pages/CountryDetail.jsx:45-79 | exactly one of loading, error and details is shown, an empty message counting as no error |
| `CountryDetail.StaleErrorScenario` | src/pages/CountryDetail.jsx:12-30 | after a failed request, a successful one for another code stores the country while the error panel stays |
| `CountryDetail.EmptyMessageScenario` | src/pages/CountryDetail.jsx:22-23 | a request that throws with an empty message after a loaded country leaves the details on screen |

## Left out

- Network requests: all `fetch` calls and the country service. The outcome of a request is an input to `FetchSucceeded`/`FetchFailed`, `FetchSettled` and `FetchResolved`/`FetchRejected`.
- JSON encoding and decoding. A stored favorites entry is either a list or unparsable text. Stored JSON that parses to something other than an array is not modelled.
- Listener wiring. Dispatching an event appends it to the trace but does not run the listeners. The model has the listeners as separate methods: `OnStorageEvent`, `OnMutations`, `CheckFavorites`, `LoadFavoriteIds`. Timers, the 2-second interval and the `MutationObserver` itself are external: `RunTimer` and the `On…` methods are the callbacks they would run.
- `window.matchMedia`. The system preference is a boolean input.
- Text.ToLower: only the ASCII letters A-Z change case. The full Unicode case mapping of `toLowerCase` is not modelled.
- Several in-flight requests resolving out of order. Each settlement is a separate method call in whatever order the caller chooses. No request can be cancelled.
- Browser.Window.WrapSessionSetItem: the wrapper is a flag, so wrapping an already wrapped `setItem` twice is not modelled. The header is mounted once.
- The `dark` class on the document root, and all markup, CSS classes, SVG, animation durations, `toLocaleString` and `Math.random` keys.
- The header's mobile menu and scroll state, and the card's image-error flag. These are presentational.
- `null` entries in the favorites page's record list (`!country`). Records are always present; only a missing `name` is modelled.
- CountryContext.FilteredCountries: a non-empty search over a record without a `name` throws in the source. The model requires every record to have a name in that case instead of modelling the exception. A record whose `name` lacks `common` also throws there, because `name.common` is read without a fallback. The model stores an absent `common` as `""`, so it silently drops that record instead.
- Listener-cleanup mismatches (a listener removed that is not the one that was added). These are resource leaks, not functional behaviour.
- The home page, routing and the Tailwind configuration. They carry no logic.
