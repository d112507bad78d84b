# Country directory: data pipeline model

This project models the data core of a browser country directory. The app
fetches REST Countries v3.1 records and normalises each one into a `Country`.
It sorts the result into a catalog by name and filters that catalog by a
search term and a region. From the detail page it resolves a country's
border codes into tags naming neighbouring catalog countries.

Modules:

- `Wrappers` (`wrappers.dfy`): the `Option` type, standing for a value that may be `undefined`.
- `CountryModel` (`country.dfy`): the raw record, the normalised `Country`, and the
  `Country` constructor with its helpers (`js/app/models/Country.js`).
- `Catalog` (`catalog.dfy`): the map-then-sort catalog build.
- `FilterEngine` (`filter.dfy`): the search and region filter.
- `BorderResolver` (`borders.dfy`): lookup by exact name and border resolution.
- `App` (`app.dfy`): the `CountriesApp` class. Its fields `countries` and
  `filteredCountries` are reassigned by `LoadCountries`, `FilterCountries`
  and `ShowHomePage`.
- `Scenarios` (`scenarios.dfy`): worked examples on a France/Germany catalog.

Modelling choices:

- A JavaScript object used as a dictionary (`nativeName`, `currencies`,
  `languages`) is the sequence of its values in `Object.values` order.
- `String.prototype.toLowerCase` is a per-character mapping `lower`.
- `String.prototype.includes` is substring containment (`FilterEngine.Includes`).
- `localeCompare` is a comparator `cmp` on names. It must be consistent, as
  the array sort requires of a comparator: `cmp(a, b) < 0` exactly when
  `cmp(b, a) > 0`, and `cmp(a, b) <= 0` is total and transitive.
  `localeCompare` meets this; the sortedness lemmas need it.
- The stable array sort is modelled as a stable insertion sort.
- JavaScript truthiness is kept. `||` replaces only `undefined` and `""`. An
  array or object is truthy even when empty, so `capital: []` gives no capital
  (`None`), and `currencies: {}` gives `""` rather than `"Unknown"`.
- `Array.prototype.join` writes a missing currency `name` as `""`.
- A record without `name` makes the constructor throw. The throw is caught in
  `loadCountries`, so loading fails and both lists stay as they were.
  `LoadCountries` returns `loaded = false` for that path.

Behaviour of the code worth knowing:

- A look-up by `cca3` exists only inside border resolution. Navigation and the
  detail page look countries up by exact name.
- A border tag has the neighbour's name in both `name` and `code`; it does not carry the neighbour's code.
- `capital` and `topLevelDomain` can be missing, which happens when the raw array is empty.
- Empty currency and language objects give `""`.
- The request's `fields=` list leaves out `cca3`. Fetched records therefore
  have no `cca3`, and border resolution always returns nothing
  (`App.FetchedCatalogHasNoBorders`).
- The card template passes `this.cca3` to `showCountryDetail` as the country
  name (js/app/models/Country.js:37). The delegated click listeners
  (js/app/CountriesApp.js:43-62) read a `data-country-name` attribute that
  neither template sets. So, read from the code alone, a card click looks up
  the name "undefined", which `ShowCountryDetail` answers with nothing. The
  click wiring itself is not part of this model.

## Model

| member | source | states |
|---|---|---|
| `CountryModel.Normalize` | js/app/models/Country.js:4-17 | the constructor; its behaviour field by field is stated by `NormalizeFails`, `NormalizeNames`, `NormalizeScalars`, `NormalizeFirstElements`, `NormalizeLinks` and `NormalizeLists` |
| `CountryModel.NativeNameOf` | js/app/models/Country.js:19-22 | `_getNativeName`; stated by `NormalizeNames` |
| `CountryModel.FirstOrUnknown` | js/app/models/Country.js:10-11 | the `arr ? arr[0] : 'Unknown'` expression; stated by `NormalizeFirstElements` |
| `CountryModel.FlagOf` | js/app/models/Country.js:15 | the flag expression; stated by `NormalizeLinks` |
| `CountryModel.Join` | js/app/models/Country.js:26 | `Array.prototype.join`; stated by `JoinAppend`, `CurrencySingle` and `NormalizeLists` |
| `CountryModel.CurrenciesOf` | js/app/models/Country.js:24-27 | `_getCurrencies`; stated by `NormalizeLists`, `CurrencySingle` and `CurrenciesInSourceOrder` |
| `CountryModel.LanguagesOf` | js/app/models/Country.js:29-32 | `_getLanguages`; stated by `NormalizeLists` and `LanguagesInSourceOrder` |
| `CountryModel.NormalizeFails` | js/app/models/Country.js:5 | normalisation fails exactly when the raw record has no `name` object |
| `CountryModel.NormalizeNames` | js/app/models/Country.js:19-22 | `name` is `name.common` unchanged (line 5); `nativeName` is the first native entry's non-empty `common`, and otherwise (no `nativeName`, no entries, empty or missing `common`) the name; a non-empty name gives a non-empty native name |
| `CountryModel.NormalizeScalars` | js/app/models/Country.js:7-9 | population is the raw value when present and 0 when absent; region and subregion are the raw string when non-empty and "Unknown" when absent or empty, so never empty |
| `CountryModel.NormalizeFirstElements` | js/app/models/Country.js:10-11 | capital and top-level domain are "Unknown" when the array is absent, its first element when non-empty, and missing exactly when the array is empty |
| `CountryModel.NormalizeLinks` | js/app/models/Country.js:14-16 | borders default to []; the flag is a non-empty svg, else a non-empty png, and is "" exactly when neither exists; `cca3` is copied as is |
| `CountryModel.NormalizeLists` | js/app/models/Country.js:24-32 | the "Unknown" default of currencies and languages applies when they are absent; an empty object gives ""; a single language gives itself |
| `CountryModel.JoinAppend` | js/app/models/Country.js:26 | joining a concatenation equals joining each part and placing the separator between them |
| `CountryModel.CurrenciesInSourceOrder` | js/app/models/Country.js:24-27 | currency names appear in source order: the string for `a + b` is the string for `a`, ", ", the string for `b` |
| `CountryModel.CurrencySingle` | js/app/models/Country.js:26 | one currency gives its name, or "" when the name is missing |
| `CountryModel.LanguagesInSourceOrder` | js/app/models/Country.js:29-32 | languages appear in source order under concatenation, separated by ", " |
| `Catalog.Insert` | js/app/CountriesApp.js:115 | inserting adds exactly one occurrence of the element (multiset) |
| `Catalog.Sort` | js/app/CountriesApp.js:115 | the sort is a permutation of its input |
| `Catalog.InsertSorted` | js/app/CountriesApp.js:115 | for a consistent comparator, insertion into a sorted list keeps it sorted by name |
| `Catalog.SortSorted` | js/app/CountriesApp.js:115 | for a consistent comparator, the sort result is sorted by name |
| `Catalog.NormalizeAll` | js/app/CountriesApp.js:115 | mapping succeeds iff every record has a name, and then yields one normalised country per record, position by position |
| `Catalog.BuildCatalog` | js/app/CountriesApp.js:115 | the catalog build; stated by `BuildCatalogSpec` and `BuildCatalogMembers` |
| `Catalog.BuildCatalogSpec` | js/app/CountriesApp.js:115 | the catalog exists iff every record has a name; it has exactly as many countries as raw records, is a permutation of the normalised records and is sorted by name |
| `Catalog.BuildCatalogMembers` | js/app/CountriesApp.js:115 | every catalog country is the normalisation of some raw record |
| `FilterEngine.Lower` | js/app/CountriesApp.js:128 | `toLowerCase` as a per-character mapping; used by `Matches` and `App.CountriesApp.FilterCountries` |
| `FilterEngine.Includes` | js/app/CountriesApp.js:132 | `includes` as substring containment; stated by `IncludesEmpty` |
| `FilterEngine.Matches` | js/app/CountriesApp.js:131-135 | the filter callback; `Filter` keeps exactly the countries it accepts |
| `FilterEngine.Filter` | js/app/CountriesApp.js:131-136 | the result is no longer than the catalog, is an order-preserving subsequence of it, and holds a country iff it is in the catalog, its lower-cased name includes the term, and the region filter is empty or equals its region |
| `FilterEngine.IncludesEmpty` | js/app/CountriesApp.js:132 | every name includes the empty search term |
| `FilterEngine.FilterEverything` | js/app/CountriesApp.js:131-134 | an empty term and an empty region give back the whole catalog in catalog order |
| `FilterEngine.FilterIdempotent` | js/app/CountriesApp.js:131-136 | re-applying the same term and region to a result returns the same sequence |
| `FilterEngine.FilterAppend` | js/app/CountriesApp.js:131-136 | filtering a concatenation is the concatenation of the filtered parts, so relative order is kept |
| `BorderResolver.FirstIndex` | js/app/CountriesApp.js:161 | `find` stops at the first element satisfying the predicate, or reports that none does |
| `BorderResolver.FindByName` | js/app/CountriesApp.js:161-165 | lookup returns the first catalog country whose name is exactly equal, and nothing iff no country has that name |
| `BorderResolver.Lookup` | js/app/CountriesApp.js:170-171 | a code resolves iff some catalog country has that `cca3`, and then to a tag naming the first such country in both fields |
| `BorderResolver.DropMissing` | js/app/CountriesApp.js:172 | `filter(Boolean)` keeps exactly the present tags and never lengthens the list |
| `BorderResolver.ResolveBorders` | js/app/CountriesApp.js:169-172 | the border mapping; stated by `ResolveBordersSound`, `ResolveBordersAppend`, `ResolveBordersSingle` and `NoCca3NoBorders` |
| `BorderResolver.ResolveBordersSound` | js/app/CountriesApp.js:169-172 | no more tags than border codes; each tag's `name` equals its `code` and is the name of a catalog country whose `cca3` is one of the codes |
| `BorderResolver.DropMissingAppend` | js/app/CountriesApp.js:172 | dropping missing tags distributes over concatenation |
| `BorderResolver.ResolveBordersAppend` | js/app/CountriesApp.js:169-172 | resolving a concatenation of codes is the concatenation of the results, so tags follow the order of `borders` |
| `BorderResolver.ResolveBordersSingle` | js/app/CountriesApp.js:170-171 | one code yields the tag of the first catalog country with that `cca3`, and nothing when there is none (unresolved codes are dropped) |
| `BorderResolver.NoCca3NoBorders` | js/app/CountriesApp.js:170 | when no catalog country has a `cca3`, every border list resolves to the empty sequence |
| `App.CountriesApp.constructor` | js/app/CountriesApp.js:5-7 | both lists start empty and the state invariant holds |
| `App.CountriesApp.LoadCountries` | js/app/CountriesApp.js:113-124 | on success the catalog is the sorted normalisation of the payload, with one country per raw record, and every country is visible; when a record lacks a name, both lists are left unchanged; the catalog stays sorted and the visible list stays a subsequence |
| `App.CountriesApp.FilterCountries` | js/app/CountriesApp.js:127-136 | the catalog is unchanged; the visible list is the catalog filtered by the lower-cased term and the region, holding exactly the matching countries |
| `App.CountriesApp.ShowHomePage` | js/app/CountriesApp.js:184-191 | clearing both inputs makes the visible list the whole catalog again, and the catalog is unchanged |
| `App.CountriesApp.ShowCountryDetail` | js/app/CountriesApp.js:159-174 | nothing iff no catalog country has exactly that name; otherwise the first such country with its resolved border tags, no more tags than border codes |
| `App.FetchedCatalogHasNoBorders` | js/app/CountriesApp.js:103-104 | records fetched without `cca3` give a catalog in which every border list resolves to nothing |
| `Scenarios.FranceBorders` | js/app/CountriesApp.js:169-172 | France's borders DEU, ESP, XXX resolve only to Germany, named in both fields |
| `Scenarios.SearchFra` | js/app/CountriesApp.js:131-136 | the term "fra" keeps France and drops Germany |
| `Scenarios.RegionEurope` | js/app/CountriesApp.js:133 | the region "Europe" with an empty term keeps both countries in catalog order |
| `Scenarios.SearchZz` | js/app/CountriesApp.js:132 | the term "zz" gives the empty list |

## Left out

- DOM access, event listeners, page switching, `renderCountries` (including its empty-list branch at line 145) and the `console.error` calls at lines 122 and 163 are UI and logging effects. `ShowCountryDetail` returns what the detail page would render instead of writing HTML.
- The network fetch, `response.ok` handling, JSON parsing and the async flow of `loadCountries` and `init` are I/O. `LoadCountries` receives the parsed payload as a parameter.
- Theme handling (`localStorage`, `setupTheme`, `toggleTheme`, `updateFilterSelectArrowColor` with `setTimeout`) is UI, storage and timers. The `currentTheme` field is therefore not modelled.
- `toCardHtml`, `toDetailHtml` and `formatNumber` (`Intl.NumberFormat`) are presentation and a foreign library.
- The locale behaviour of `localeCompare` and Unicode `toLowerCase` is foreign library behaviour. Both are parameters. `toLowerCase` is assumed to map each character to one character, which Unicode lower-casing does not always do.
- The commented-out older class (lines 198-348) is dead code, and main.js only bootstraps the app.
- JavaScript values of the wrong type are not modelled, such as a string `population` or a `NaN`. Each raw field holds its documented type or is absent. `name.common` is always a string.
- Catalog.BuildCatalogSpec: states sortedness and permutation but not stability. The model's insertion sort is stable, as the array sort is, but no lemma says so.
