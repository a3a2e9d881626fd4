/**
 * `SearchFilter`: the search box and the region dropdown. The dropdown's open
 * flag is the component's own state; the search text and the region belong to
 * the country provider and are changed through its setters.
 */
module SearchFilter {
  import opened CountryContext

  /** The regions the dropdown offers, in display order. */
  const Regions: seq<string> := ["Africa", "Americas", "Asia", "Europe", "Oceania"]

  /** The dropdown label when no region is chosen. */
  const Placeholder: string := "Filter by Region"

  /** A region the dropdown can leave selected: none, or one of the five. */
  predicate ValidRegion(region: string)
  {
    region == "" || region in Regions
  }

  /** The text on the dropdown button. */
  function Label(selectedRegion: string): (shown: string)
    ensures selectedRegion != "" ==> shown == selectedRegion
    ensures selectedRegion == "" ==> shown == Placeholder
    ensures shown != ""
  {
    if selectedRegion != "" then selectedRegion else Placeholder
  }

  /** Different selections show different labels, so the label always tells the user the selection. */
  lemma LabelDistinguishes(a: string, b: string)
    requires ValidRegion(a) && ValidRegion(b)
    ensures Label(a) == Label(b) <==> a == b
  {
  }

  /** The clear button is rendered exactly when there is search text. */
  predicate ShowsClearButton(searchTerm: string)
  {
    searchTerm != ""
  }

  class SearchFilter {
    const ctx: Provider
    var isDropdownOpen: bool

    /** What the component keeps true: the provider's region is one the dropdown offers. */
    ghost predicate Valid()
      reads this, ctx
    {
      ctx.Valid() && ValidRegion(ctx.selectedRegion)
    }

    constructor (ctx: Provider)
      requires ctx.Valid() && ValidRegion(ctx.selectedRegion)
      ensures Valid()
      ensures this.ctx == ctx && !isDropdownOpen
    {
      this.ctx := ctx;
      isDropdownOpen := false;
    }

    /** The dropdown button: `setIsDropdownOpen(!isDropdownOpen)`. */
    method ToggleDropdown()
      requires Valid()
      modifies this
      ensures Valid()
      ensures isDropdownOpen == !old(isDropdownOpen)
    {
      isDropdownOpen := !isDropdownOpen;
    }

    /** A `mousedown` anywhere in the document: one outside the dropdown closes it, one inside changes nothing. */
    method MouseDown(insideDropdown: bool)
      requires Valid()
      modifies this
      ensures Valid()
      ensures isDropdownOpen == (old(isDropdownOpen) && insideDropdown)
    {
      if !insideDropdown {
        isDropdownOpen := false;
      }
    }

    /** "All Regions": clears the region and closes the dropdown. */
    method ChooseAllRegions()
      requires Valid()
      modifies this, ctx
      ensures Valid()
      ensures ctx.selectedRegion == "" && !isDropdownOpen
      ensures ctx.searchTerm == old(ctx.searchTerm)
      ensures ctx.countries == old(ctx.countries) && ctx.filteredCountries == old(ctx.filteredCountries)
      ensures ctx.loading == old(ctx.loading) && ctx.error == old(ctx.error)
    {
      ctx.SetSelectedRegion("");
      isDropdownOpen := false;
    }

    /** One of the five region entries: selects it and closes the dropdown. */
    method ChooseRegion(region: string)
      requires Valid()
      requires region in Regions
      modifies this, ctx
      ensures Valid()
      ensures ctx.selectedRegion == region && !isDropdownOpen
      ensures ctx.searchTerm == old(ctx.searchTerm)
      ensures ctx.countries == old(ctx.countries) && ctx.filteredCountries == old(ctx.filteredCountries)
      ensures ctx.loading == old(ctx.loading) && ctx.error == old(ctx.error)
    {
      ctx.SetSelectedRegion(region);
      isDropdownOpen := false;
    }

    /** Typing in the search box: `setSearchTerm(text)`. */
    method TypeSearch(text: string)
      requires Valid()
      modifies ctx
      ensures Valid()
      ensures ctx.searchTerm == text && ctx.selectedRegion == old(ctx.selectedRegion)
      ensures ctx.countries == old(ctx.countries) && ctx.filteredCountries == old(ctx.filteredCountries)
      ensures ctx.loading == old(ctx.loading) && ctx.error == old(ctx.error)
    {
      ctx.SetSearchTerm(text);
    }

    /** The clear button: `setSearchTerm('')`, which also removes the button. */
    method ClearSearch()
      requires Valid()
      modifies ctx
      ensures Valid()
      ensures ctx.searchTerm == "" && !ShowsClearButton(ctx.searchTerm)
      ensures ctx.selectedRegion == old(ctx.selectedRegion)
      ensures ctx.countries == old(ctx.countries) && ctx.filteredCountries == old(ctx.filteredCountries)
      ensures ctx.loading == old(ctx.loading) && ctx.error == old(ctx.error)
    {
      ctx.SetSearchTerm("");
    }
  }
}
