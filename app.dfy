/**
 * The state of `CountriesApp` (js/app/CountriesApp.js): the sorted catalog
 * `countries` and the visible subset `filteredCountries`, which loading and
 * filtering reassign. The search box and region select are the parameters
 * of `FilterCountries`; the locale functions `toLowerCase` and
 * `localeCompare` are fixed when the object is created.
 */
module App {
  import opened Wrappers
  import opened CountryModel
  import opened Catalog
  import opened FilterEngine
  import opened BorderResolver

  /** What the detail page shows: the country and its resolved border tags. */
  datatype Detail = Detail(country: Country, borderCountries: seq<BorderLink>)

  class CountriesApp {
    var countries: seq<Country>
    var filteredCountries: seq<Country>
    const lower: char -> char
    const cmp: Comparator

    /** The catalog is sorted and the visible list is drawn from it in order. */
    ghost predicate Valid()
      reads this
    {
      && IsTotalPreorder(cmp)
      && Sorted(cmp, countries)
      && IsSubsequence(filteredCountries, countries)
    }

    /** Lines 5-7: both lists start empty. */
    constructor (lower: char -> char, cmp: Comparator)
      requires IsTotalPreorder(cmp)
      ensures Valid()
      ensures countries == [] && filteredCountries == []
      ensures this.lower == lower && this.cmp == cmp
    {
      this.lower := lower;
      this.cmp := cmp;
      countries := [];
      filteredCountries := [];
    }

    /**
     * Lines 113-117 on the parsed payload `data`: the catalog is rebuilt and
     * everything becomes visible. A record the constructor throws on sends
     * control to the catch block (121-124), which leaves both lists as they were.
     */
    method LoadCountries(data: seq<RawCountry>) returns (loaded: bool)
      requires Valid()
      modifies this
      ensures Valid()
      ensures loaded <==> forall i :: 0 <= i < |data| ==> data[i].name.Some?
      ensures loaded ==> countries == BuildCatalog(cmp, data).value && filteredCountries == countries
      ensures loaded ==> |countries| == |data| && multiset(countries) == multiset(NormalizeAll(data).value)
      ensures !loaded ==> countries == old(countries) && filteredCountries == old(filteredCountries)
    {
      BuildCatalogSpec(cmp, data);
      var catalog := BuildCatalog(cmp, data);
      if catalog.Some? {
        countries := catalog.value;
        filteredCountries := countries;
        SubsequenceOfItself(countries);
        loaded := true;
      } else {
        loaded := false;
      }
    }

    /**
     * Lines 127-136: the search term is lower-cased and the catalog filtered;
     * the catalog itself is left unchanged.
     */
    method FilterCountries(searchInput: string, regionFilter: string)
      requires Valid()
      modifies this
      ensures Valid()
      ensures countries == old(countries)
      ensures filteredCountries == Filter(lower, countries, Lower(lower, searchInput), regionFilter)
      ensures forall c :: c in filteredCountries <==>
                c in countries && Includes(Lower(lower, c.name), Lower(lower, searchInput))
                && (regionFilter == "" || c.region == regionFilter)
    {
      filteredCountries := Filter(lower, countries, Lower(lower, searchInput), regionFilter);
    }

    /** Lines 184-191: clearing both inputs and re-filtering shows the whole catalog again. */
    method ShowHomePage()
      requires Valid()
      modifies this
      ensures Valid()
      ensures countries == old(countries) && filteredCountries == countries
    {
      FilterCountries("", "");
      FilterEverything(lower, countries);
    }

    /**
     * Lines 159-174: the first catalog country with exactly this name and its
     * border tags, or nothing when no country has that name.
     */
    method ShowCountryDetail(countryName: string) returns (detail: Option<Detail>)
      ensures detail.None? <==> forall i :: 0 <= i < |countries| ==> countries[i].name != countryName
      ensures detail.Some? ==>
                exists i :: && 0 <= i < |countries| && countries[i] == detail.value.country
                            && countries[i].name == countryName
                            && forall j :: 0 <= j < i ==> countries[j].name != countryName
      ensures detail.Some? ==> detail.value.borderCountries == ResolveBorders(countries, detail.value.country.borders)
      ensures detail.Some? ==> |detail.value.borderCountries| <= |detail.value.country.borders|
    {
      var country := FindByName(countries, countryName);
      if country.None? {
        detail := None;
      } else {
        var c := country.value;
        ResolveBordersSound(countries, c.borders);
        detail := Some(Detail(c, ResolveBorders(countries, c.borders)));
      }
    }
  }

  lemma {:induction false} SubsequenceOfItself<T>(s: seq<T>)
    ensures IsSubsequence(s, s)
    decreases |s|
  {
    if |s| > 0 {
      SubsequenceOfItself(s[1..]);
    }
  }

  /**
   * The request at lines 103-104 omits `cca3`, so no fetched record carries
   * one; every catalog built from them resolves no border at all.
   */
  lemma FetchedCatalogHasNoBorders(cmp: Comparator, data: seq<RawCountry>, codes: seq<string>)
    requires forall i :: 0 <= i < |data| ==> data[i].cca3.None?
    requires BuildCatalog(cmp, data).Some?
    ensures ResolveBorders(BuildCatalog(cmp, data).value, codes) == []
  {
    var catalog := BuildCatalog(cmp, data).value;
    forall c | c in catalog ensures c.cca3.None? {
      BuildCatalogMembers(cmp, data, c);
      var i :| 0 <= i < |data| && Normalize(data[i]) == Some(c);
      NormalizeLinks(data[i], c);
    }
    NoCca3NoBorders(catalog, codes);
  }
}
