/**
 * The country record as the REST Countries API returns it, reduced to the
 * fields the components read. A JSON object used as an ordered dictionary
 * (`nativeName`, `currencies`, `languages`) is a sequence of key/value pairs
 * in insertion order, which is the order `Object.values` yields for keys
 * that do not look like integers; the API's language, currency and
 * native-name keys are letter codes such as `eng`, `EUR` or `deu`. An absent
 * string field is "", as the empty string behaves alike under `||`; the one
 * read without `||`, `name.common` in the country provider's search, is
 * covered there.
 */
module Countries {
  import opened Wrappers

  datatype NativeName = NativeName(official: string, common: string)

  datatype CountryName = CountryName(common: string, official: string, nativeName: seq<(string, NativeName)>)

  datatype Currency = Currency(name: string, symbol: string)

  datatype Country = Country(
    name: Option<CountryName>,
    cca3: string,
    region: string,
    subregion: string,
    capital: Option<seq<string>>,
    tld: Option<seq<string>>,
    currencies: Option<seq<(string, Currency)>>,
    languages: Option<seq<(string, string)>>,
    borders: Option<seq<string>>)

  /** The record has a `name` object. */
  predicate Named(c: Country)
  {
    c.name.Some?
  }

  /** `name.common` of a named record. */
  function CommonName(c: Country): string
    requires Named(c)
  {
    c.name.value.common
  }
}
