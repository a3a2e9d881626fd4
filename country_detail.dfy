/**
 * `CountryDetail`: the page for one country code, the request's outcome, and
 * the helpers that turn the record's dictionaries and lists into text.
 */
module CountryDetail {
  import opened Wrappers
  import opened Countries
  import opened Text

  const NotAvailable: string := "N/A"
  const NotFound: string := "Country not found"
  const Separator: string := ", "
  const CountryRoute: string := "/country/"

  /** `Object.values(entries)`, in insertion order. */
  function Values<V>(entries: seq<(string, V)>): (r: seq<V>)
    ensures |r| == |entries|
    ensures forall i :: 0 <= i < |entries| ==> r[i] == entries[i].1
  {
    seq(|entries|, i requires 0 <= i < |entries| => entries[i].1)
  }

  /** The `name` of each currency, in order. */
  function CurrencyNames(entries: seq<(string, Currency)>): (r: seq<string>)
    ensures |r| == |entries|
    ensures forall i :: 0 <= i < |entries| ==> r[i] == entries[i].1.name
  {
    seq(|entries|, i requires 0 <= i < |entries| => entries[i].1.name)
  }

  /** `getLanguages`: `'N/A'` without a languages object, else its values joined by `', '`. */
  function GetLanguages(languages: Option<seq<(string, string)>>): (text: string)
    ensures languages.None? ==> text == NotAvailable
    ensures languages == Some([]) ==> text == ""
    ensures languages.Some? && |languages.value| == 1 ==> text == languages.value[0].1
  {
    match languages
    case None => NotAvailable
    case Some(entries) => Join(Values(entries), Separator)
  }

  /** One more language adds `', '` and its name at the end, so the names appear in order. */
  lemma {:induction false} LanguagesInOrder(entries: seq<(string, string)>, key: string, language: string)
    requires |entries| > 0
    ensures GetLanguages(Some(entries + [(key, language)])) == GetLanguages(Some(entries)) + Separator + language
  {
    assert Values(entries + [(key, language)]) == Values(entries) + [language];
    JoinSnoc(Values(entries), language, Separator);
  }

  /** Every language of the object is in the text. */
  lemma LanguagesListed(entries: seq<(string, string)>, k: nat)
    requires k < |entries|
    ensures Contains(GetLanguages(Some(entries)), entries[k].1)
  {
    JoinContainsEach(Values(entries), Separator, k);
  }

  /** `getCurrencies`: `'N/A'` without a currencies object, else each currency's name joined by `', '`. */
  function GetCurrencies(currencies: Option<seq<(string, Currency)>>): (text: string)
    ensures currencies.None? ==> text == NotAvailable
    ensures currencies == Some([]) ==> text == ""
    ensures currencies.Some? && |currencies.value| == 1 ==> text == currencies.value[0].1.name
  {
    match currencies
    case None => NotAvailable
    case Some(entries) => Join(CurrencyNames(entries), Separator)
  }

  /** One more currency adds `', '` and its name at the end, so the names appear in order. */
  lemma {:induction false} CurrenciesInOrder(entries: seq<(string, Currency)>, key: string, currency: Currency)
    requires |entries| > 0
    ensures GetCurrencies(Some(entries + [(key, currency)])) == GetCurrencies(Some(entries)) + Separator + currency.name
  {
    assert CurrencyNames(entries + [(key, currency)]) == CurrencyNames(entries) + [currency.name];
    JoinSnoc(CurrencyNames(entries), currency.name, Separator);
  }

  /** Every currency's name is in the text. */
  lemma CurrenciesListed(entries: seq<(string, Currency)>, k: nat)
    requires k < |entries|
    ensures Contains(GetCurrencies(Some(entries)), entries[k].1.name)
  {
    JoinContainsEach(CurrencyNames(entries), Separator, k);
  }

  /** `getNativeName`: the first native name's `common`, or `name.common` when there is none. */
  function GetNativeName(name: CountryName): (shown: string)
    ensures |name.nativeName| > 0 ==> shown == name.nativeName[0].1.common
    ensures |name.nativeName| == 0 ==> shown == name.common
  {
    if |name.nativeName| > 0 then name.nativeName[0].1.common else name.common
  }

  /** `list?.[0] || 'N/A'`, as used for the capital and the top-level domain. */
  function FirstOrNotAvailable(list: Option<seq<string>>): (shown: string)
    ensures shown != ""
    ensures list.Some? && |list.value| > 0 && list.value[0] != "" ==> shown == list.value[0]
    ensures !(list.Some? && |list.value| > 0 && list.value[0] != "") ==> shown == NotAvailable
  {
    if list.Some? && |list.value| > 0 && list.value[0] != "" then list.value[0] else NotAvailable
  }

  /** `subregion || 'N/A'`. */
  function SubregionText(subregion: string): (shown: string)
    ensures shown != ""
    ensures subregion != "" ==> shown == subregion
    ensures subregion == "" ==> shown == NotAvailable
  {
    if subregion != "" then subregion else NotAvailable
  }

  /** The border section is rendered exactly when `borders` is a non-empty list. */
  predicate ShowsBorders(c: Country)
  {
    c.borders.Some? && |c.borders.value| > 0
  }

  /** The border links' targets: one per neighbour code, in order. */
  function BorderLinks(c: Country): (targets: seq<string>)
    ensures !ShowsBorders(c) ==> targets == []
    ensures ShowsBorders(c) ==> |targets| == |c.borders.value|
    ensures ShowsBorders(c) ==> forall i :: 0 <= i < |targets| ==> targets[i] == CountryRoute + c.borders.value[i]
  {
    if ShowsBorders(c) then seq(|c.borders.value|, i requires 0 <= i < |c.borders.value| => CountryRoute + c.borders.value[i])
    else []
  }

  class DetailPage {
    var code: string
    var country: Option<Country>
    var loading: bool
    var error: Option<string>

    constructor (code: string)
      ensures this.code == code && country == None && loading && error == None
    {
      this.code := code;
      country := None;
      loading := true;
      error := None;
    }

    /** The route's code changed; the fetch effect then runs again. */
    method Navigate(newCode: string)
      modifies this
      ensures code == newCode
      ensures country == old(country) && loading == old(loading) && error == old(error)
    {
      code := newCode;
    }

    /** The fetch effect starts: `setLoading(true)`; the country and the error are left as they are. */
    method BeginFetch()
      modifies this
      ensures loading
      ensures code == old(code) && country == old(country) && error == old(error)
    {
      loading := true;
    }

    /** The request resolved with `data`: a first element becomes the country, otherwise the error is "Country not found". */
    method FetchResolved(data: Option<seq<Country>>)
      modifies this
      ensures !loading && code == old(code)
      ensures data.Some? && |data.value| > 0 ==> country == Some(data.value[0]) && error == old(error)
      ensures !(data.Some? && |data.value| > 0) ==> country == old(country) && error == Some(NotFound)
    {
      if data.Some? && |data.value| > 0 {
        country := Some(data.value[0]);
      } else {
        error := Some(NotFound);
      }
      loading := false;
    }

    /** The request threw: its message becomes the error. */
    method FetchRejected(message: string)
      modifies this
      ensures !loading && error == Some(message)
      ensures code == old(code) && country == old(country)
    {
      error := Some(message);
      loading := false;
    }

    /** The loading skeleton. */
    predicate ShowsLoading()
      reads this
    {
      loading
    }

    /** `error` is truthy: a message is set and it is not the empty string. */
    predicate HasMessage()
      reads this
    {
      error.Some? && error.value != ""
    }

    /** The error panel: not loading, and `error || !country`. */
    predicate ShowsError()
      reads this
    {
      !loading && (HasMessage() || country.None?)
    }

    /** The detail view: not loading, no truthy error, a country. */
    predicate ShowsDetails()
      reads this
    {
      !loading && !HasMessage() && country.Some?
    }

    /** The error panel's text: `error || 'Country not found'`. */
    function ErrorText(): (text: string)
      reads this
      ensures text != ""
      ensures HasMessage() ==> text == error.value
      ensures !HasMessage() ==> text == NotFound
    {
      if HasMessage() then error.value else NotFound
    }

    /** Exactly one of the three views is rendered. */
    lemma OneView()
      ensures ShowsLoading() || ShowsError() || ShowsDetails()
      ensures !(ShowsLoading() && ShowsError()) && !(ShowsLoading() && ShowsDetails()) && !(ShowsError() && ShowsDetails())
    {
    }
  }

  /**
   * A failed request followed by a successful one for another code: the error
   * is never cleared, so the second country is stored but the error panel stays.
   */
  method StaleErrorScenario(first: string, second: string, found: Country) returns (errorShown: bool, stored: Option<Country>)
    ensures errorShown
    ensures stored == Some(found)
  {
    var page := new DetailPage(first);
    page.BeginFetch();
    page.FetchResolved(None);
    page.Navigate(second);
    page.BeginFetch();
    page.FetchResolved(Some([found]));
    errorShown := page.ShowsError();
    stored := page.country;
  }

  /**
   * A request that throws with an empty message after a country was shown:
   * the empty message is falsy, so the page keeps showing the stored country.
   */
  method EmptyMessageScenario(first: string, second: string, found: Country) returns (detailsShown: bool, stored: Option<Country>)
    ensures detailsShown
    ensures stored == Some(found)
  {
    var page := new DetailPage(first);
    page.FetchResolved(Some([found]));
    page.Navigate(second);
    page.BeginFetch();
    page.FetchRejected("");
    detailsShown := page.ShowsDetails();
    stored := page.country;
  }
}
