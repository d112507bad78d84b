/**
 * The record normaliser of js/app/models/Country.js: the `Country`
 * constructor and its `_getNativeName`, `_getCurrencies` and `_getLanguages`
 * helpers turn one loosely shaped REST Countries v3.1 record into a record
 * with a fixed set of fields.
 *
 * A JavaScript object used as a dictionary (`nativeName`, `currencies`,
 * `languages`) is modelled by the sequence of its values in `Object.values`
 * order; a property that may be missing is an `Option`.
 */
module CountryModel {
  import opened Wrappers

  /** One entry of `name.nativeName`; only its `common` member is read. */
  datatype NativeNameEntry = NativeNameEntry(common: Option<string>)

  /** The `name` object of a raw record. */
  datatype RawName = RawName(common: string, nativeName: Option<seq<NativeNameEntry>>)

  /** One entry of `currencies`; only its `name` member is read. */
  datatype RawCurrency = RawCurrency(name: Option<string>)

  datatype RawFlags = RawFlags(svg: Option<string>, png: Option<string>)

  /** A record as the REST Countries API delivers it: every property may be absent. */
  datatype RawCountry = RawCountry(
    name: Option<RawName>,
    population: Option<int>,
    region: Option<string>,
    subregion: Option<string>,
    capital: Option<seq<string>>,
    tld: Option<seq<string>>,
    currencies: Option<seq<RawCurrency>>,
    languages: Option<seq<string>>,
    borders: Option<seq<string>>,
    flags: Option<RawFlags>,
    cca3: Option<string>)

  /**
   * A normalised country. `capital` and `topLevelDomain` stay optional,
   * because an empty array in the raw record yields `undefined`; `cca3` stays
   * optional, because it is copied unchecked.
   */
  datatype Country = Country(
    name: string,
    nativeName: string,
    population: int,
    region: string,
    subregion: string,
    capital: Option<string>,
    topLevelDomain: Option<string>,
    currencies: string,
    languages: string,
    borders: seq<string>,
    flag: string,
    cca3: Option<string>)

  const Unknown: string := "Unknown"
  const Separator: string := ", "

  /** JavaScript truthiness of a string that may be `undefined`. */
  predicate Truthy(s: Option<string>) {
    s.Some? && s.value != ""
  }

  /** The JavaScript expression `s || fallback` on a string that may be `undefined`. */
  function OrElse(s: Option<string>, fallback: string): string {
    if Truthy(s) then s.value else fallback
  }

  /** The expression `arr ? arr[0] : 'Unknown'`: an array is truthy even when empty. */
  function FirstOrUnknown(arr: Option<seq<string>>): Option<string> {
    match arr
    case None => Some(Unknown)
    case Some(a) => if |a| > 0 then Some(a[0]) else None
  }

  /** `Array.prototype.join(sep)`. */
  function Join(parts: seq<string>, sep: string): string
    decreases |parts|
  {
    if |parts| == 0 then ""
    else if |parts| == 1 then parts[0]
    else parts[0] + sep + Join(parts[1..], sep)
  }

  /** `_getNativeName(nativeNameData, fallbackName)`. */
  function NativeNameOf(nativeNameData: Option<seq<NativeNameEntry>>, fallbackName: string): string {
    match nativeNameData
    case None => fallbackName
    case Some(entries) =>
      if |entries| > 0 then OrElse(entries[0].common, fallbackName) else fallbackName
  }

  /** The currency names in source order; `join` renders a missing name as "". */
  function CurrencyNames(cs: seq<RawCurrency>): seq<string> {
    seq(|cs|, i requires 0 <= i < |cs| => cs[i].name.GetOr(""))
  }

  /** `_getCurrencies(currenciesData)`. */
  function CurrenciesOf(currenciesData: Option<seq<RawCurrency>>): string {
    match currenciesData
    case None => Unknown
    case Some(cs) => Join(CurrencyNames(cs), Separator)
  }

  /** `_getLanguages(languagesData)`. */
  function LanguagesOf(languagesData: Option<seq<string>>): string {
    match languagesData
    case None => Unknown
    case Some(ls) => Join(ls, Separator)
  }

  /** `data.flags?.svg || data.flags?.png || ''`. */
  function FlagOf(flags: Option<RawFlags>): string {
    match flags
    case None => ""
    case Some(f) => OrElse(f.svg, OrElse(f.png, ""))
  }

  /**
   * `new Country(data)`. Reading `data.name.common` throws a TypeError when
   * `name` is absent; that failure is `None`.
   */
  function Normalize(raw: RawCountry): Option<Country> {
    match raw.name
    case None => None
    case Some(n) =>
      Some(Country(
        name := n.common,
        nativeName := NativeNameOf(n.nativeName, n.common),
        population := if raw.population.Some? && raw.population.value != 0 then raw.population.value else 0,
        region := OrElse(raw.region, Unknown),
        subregion := OrElse(raw.subregion, Unknown),
        capital := FirstOrUnknown(raw.capital),
        topLevelDomain := FirstOrUnknown(raw.tld),
        currencies := CurrenciesOf(raw.currencies),
        languages := LanguagesOf(raw.languages),
        borders := raw.borders.GetOr([]),
        flag := FlagOf(raw.flags),
        cca3 := raw.cca3))
  }

  // ---------------------------------------------------------------------
  // Properties of the normaliser

  /** Normalisation fails exactly when the record has no `name`. */
  lemma NormalizeFails(raw: RawCountry)
    ensures Normalize(raw).None? <==> raw.name.None?
  {
  }

  /** `name` is `name.common` unchanged; `nativeName` is the first native entry's `common` when non-empty, else the name. */
  lemma NormalizeNames(raw: RawCountry, c: Country)
    requires Normalize(raw) == Some(c)
    ensures c.name == raw.name.value.common
    ensures raw.name.value.nativeName.None? ==> c.nativeName == c.name
    ensures raw.name.value.nativeName == Some([]) ==> c.nativeName == c.name
    ensures var entries := raw.name.value.nativeName.GetOr([]);
              |entries| > 0 && Truthy(entries[0].common) ==> c.nativeName == entries[0].common.value
    ensures var entries := raw.name.value.nativeName.GetOr([]);
              |entries| > 0 && !Truthy(entries[0].common) ==> c.nativeName == c.name
    ensures c.name != "" ==> c.nativeName != ""
  {
  }

  /** `population` defaults to 0; `region` and `subregion` default to "Unknown" and are never empty. */
  lemma NormalizeScalars(raw: RawCountry, c: Country)
    requires Normalize(raw) == Some(c)
    ensures raw.population.None? ==> c.population == 0
    ensures raw.population.Some? ==> c.population == raw.population.value
    ensures Truthy(raw.region) ==> c.region == raw.region.value
    ensures !Truthy(raw.region) ==> c.region == Unknown
    ensures Truthy(raw.subregion) ==> c.subregion == raw.subregion.value
    ensures !Truthy(raw.subregion) ==> c.subregion == Unknown
    ensures c.region != "" && c.subregion != ""
  {
  }

  /** `capital` and `topLevelDomain`: "Unknown" when absent, the first element otherwise, nothing for an empty array. */
  lemma NormalizeFirstElements(raw: RawCountry, c: Country)
    requires Normalize(raw) == Some(c)
    ensures raw.capital.None? ==> c.capital == Some(Unknown)
    ensures raw.capital.Some? && |raw.capital.value| > 0 ==> c.capital == Some(raw.capital.value[0])
    ensures c.capital.None? <==> raw.capital == Some([])
    ensures raw.tld.None? ==> c.topLevelDomain == Some(Unknown)
    ensures raw.tld.Some? && |raw.tld.value| > 0 ==> c.topLevelDomain == Some(raw.tld.value[0])
    ensures c.topLevelDomain.None? <==> raw.tld == Some([])
  {
  }

  /** `borders` defaults to []; `flag` prefers a non-empty svg over a non-empty png over ""; `cca3` is copied. */
  lemma NormalizeLinks(raw: RawCountry, c: Country)
    requires Normalize(raw) == Some(c)
    ensures raw.borders.None? ==> c.borders == []
    ensures raw.borders.Some? ==> c.borders == raw.borders.value
    ensures raw.flags.Some? && Truthy(raw.flags.value.svg) ==> c.flag == raw.flags.value.svg.value
    ensures raw.flags.Some? && !Truthy(raw.flags.value.svg) && Truthy(raw.flags.value.png) ==>
              c.flag == raw.flags.value.png.value
    ensures c.flag == "" <==>
              raw.flags.None? || (!Truthy(raw.flags.value.svg) && !Truthy(raw.flags.value.png))
    ensures c.cca3 == raw.cca3
  {
  }

  /** The "Unknown" default of `currencies` and `languages` applies when absent; an empty object gives "". */
  lemma NormalizeLists(raw: RawCountry, c: Country)
    requires Normalize(raw) == Some(c)
    ensures raw.currencies.None? ==> c.currencies == Unknown
    ensures raw.currencies == Some([]) ==> c.currencies == ""
    ensures raw.languages.None? ==> c.languages == Unknown
    ensures raw.languages == Some([]) ==> c.languages == ""
    ensures forall l :: raw.languages == Some([l]) ==> c.languages == l
  {
  }

  // ---------------------------------------------------------------------
  // Properties of join: concatenation keeps source order

  lemma {:induction false} JoinAppend(a: seq<string>, b: seq<string>, sep: string)
    requires |a| > 0 && |b| > 0
    ensures Join(a + b, sep) == Join(a, sep) + sep + Join(b, sep)
    decreases |a|
  {
    assert (a + b)[0] == a[0];
    assert (a + b)[1..] == a[1..] + b;
    if |a| > 1 {
      JoinAppend(a[1..], b, sep);
    }
  }

  /** The currencies string of a concatenation is the two strings joined by ", ": names appear in source order. */
  lemma CurrenciesInSourceOrder(a: seq<RawCurrency>, b: seq<RawCurrency>)
    requires |a| > 0 && |b| > 0
    ensures CurrenciesOf(Some(a + b)) == CurrenciesOf(Some(a)) + Separator + CurrenciesOf(Some(b))
  {
    assert CurrencyNames(a + b) == CurrencyNames(a) + CurrencyNames(b);
    JoinAppend(CurrencyNames(a), CurrencyNames(b), Separator);
  }

  /** A single currency contributes its name, or "" when its name is missing. */
  lemma CurrencySingle(cur: RawCurrency)
    ensures CurrenciesOf(Some([cur])) == cur.name.GetOr("")
  {
  }

  /** The languages string of a concatenation is the two strings joined by ", ". */
  lemma LanguagesInSourceOrder(a: seq<string>, b: seq<string>)
    requires |a| > 0 && |b| > 0
    ensures LanguagesOf(Some(a + b)) == LanguagesOf(Some(a)) + Separator + LanguagesOf(Some(b))
  {
    JoinAppend(a, b, Separator);
  }
}
