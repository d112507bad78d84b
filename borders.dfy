/**
 * Name lookup and border resolution of `CountriesApp.showCountryDetail`
 * (js/app/CountriesApp.js:159-172): `countries.find` by exact name, then
 * `borders.map(code => find by cca3).filter(Boolean)`.
 */
module BorderResolver {
  import opened Wrappers
  import opened CountryModel

  /** A border tag: the neighbour's name, stored both as `name` and as `code`. */
  datatype BorderLink = BorderLink(name: string, code: string)

  /** The index `Array.prototype.find` stops at, if any. */
  function FirstIndex<T>(s: seq<T>, p: T -> bool): (r: Option<nat>)
    ensures r.Some? ==> r.value < |s| && p(s[r.value]) && forall j :: 0 <= j < r.value ==> !p(s[j])
    ensures r.None? ==> forall j :: 0 <= j < |s| ==> !p(s[j])
    decreases |s|
  {
    if |s| == 0 then None
    else if p(s[0]) then Some(0)
    else
      match FirstIndex(s[1..], p)
      case None => None
      case Some(k) => Some(k + 1)
  }

  /** `countries.find(c => c.name === countryName)` (line 161). */
  function FindByName(countries: seq<Country>, countryName: string): (r: Option<Country>)
    ensures r.None? <==> forall i :: 0 <= i < |countries| ==> countries[i].name != countryName
    ensures r.Some? ==> exists i :: 0 <= i < |countries| && countries[i] == r.value && r.value.name == countryName
                                 && forall j :: 0 <= j < i ==> countries[j].name != countryName
  {
    match FirstIndex(countries, (c: Country) => c.name == countryName)
    case None => None
    case Some(i) => Some(countries[i])
  }

  /** Line 170-171 for one code: the first catalog country with that `cca3`, as a tag, or `null`. */
  function Lookup(countries: seq<Country>, borderCode: string): (r: Option<BorderLink>)
    ensures r.None? <==> forall i :: 0 <= i < |countries| ==> countries[i].cca3 != Some(borderCode)
    ensures r.Some? ==> exists i :: 0 <= i < |countries| && countries[i].cca3 == Some(borderCode)
                                 && r.value == BorderLink(countries[i].name, countries[i].name)
                                 && forall j :: 0 <= j < i ==> countries[j].cca3 != Some(borderCode)
  {
    match FirstIndex(countries, (c: Country) => c.cca3 == Some(borderCode))
    case None => None
    case Some(i) => Some(BorderLink(countries[i].name, countries[i].name))
  }

  /** `.filter(Boolean)`: every tag object is truthy, every `null` is dropped. */
  function DropMissing(tags: seq<Option<BorderLink>>): (r: seq<BorderLink>)
    ensures |r| <= |tags|
    ensures forall e :: e in r <==> Some(e) in tags
    decreases |tags|
  {
    if |tags| == 0 then []
    else
      assert forall t :: t in tags <==> t == tags[0] || t in tags[1..];
      match tags[0]
      case None => DropMissing(tags[1..])
      case Some(e) => [e] + DropMissing(tags[1..])
  }

  /** Lines 169-172. */
  function ResolveBorders(countries: seq<Country>, borders: seq<string>): seq<BorderLink> {
    DropMissing(seq(|borders|, i requires 0 <= i < |borders| => Lookup(countries, borders[i])))
  }

  // ---------------------------------------------------------------------
  // Properties

  /** No more tags than border codes; each tag names, twice, a catalog country whose cca3 is one of the codes. */
  lemma ResolveBordersSound(countries: seq<Country>, borders: seq<string>)
    ensures |ResolveBorders(countries, borders)| <= |borders|
    ensures forall e :: e in ResolveBorders(countries, borders) ==>
              && e.name == e.code
              && exists c :: c in countries && c.name == e.name && c.cca3.Some? && c.cca3.value in borders
  {
  }

  lemma {:induction false} DropMissingAppend(a: seq<Option<BorderLink>>, b: seq<Option<BorderLink>>)
    ensures DropMissing(a + b) == DropMissing(a) + DropMissing(b)
    decreases |a|
  {
    if |a| > 0 {
      assert (a + b)[0] == a[0];
      assert (a + b)[1..] == a[1..] + b;
      DropMissingAppend(a[1..], b);
    } else {
      assert a + b == b;
    }
  }

  /** Resolution distributes over concatenation: tags follow the order of the codes. */
  lemma ResolveBordersAppend(countries: seq<Country>, a: seq<string>, b: seq<string>)
    ensures ResolveBorders(countries, a + b) == ResolveBorders(countries, a) + ResolveBorders(countries, b)
  {
    var ta := seq(|a|, i requires 0 <= i < |a| => Lookup(countries, a[i]));
    var tb := seq(|b|, i requires 0 <= i < |b| => Lookup(countries, b[i]));
    assert seq(|a + b|, i requires 0 <= i < |a + b| => Lookup(countries, (a + b)[i])) == ta + tb;
    DropMissingAppend(ta, tb);
  }

  /** A single code yields one tag when some catalog country carries it as cca3, and none otherwise. */
  lemma ResolveBordersSingle(countries: seq<Country>, code: string)
    ensures (exists c :: c in countries && c.cca3 == Some(code)) ==>
              exists i :: && 0 <= i < |countries| && countries[i].cca3 == Some(code)
                          && (forall j :: 0 <= j < i ==> countries[j].cca3 != Some(code))
                          && ResolveBorders(countries, [code]) == [BorderLink(countries[i].name, countries[i].name)]
    ensures (forall c :: c in countries ==> c.cca3 != Some(code)) ==>
              ResolveBorders(countries, [code]) == []
  {
    var tags := seq(1, i requires 0 <= i < 1 => Lookup(countries, [code][i]));
    assert tags == [Lookup(countries, code)];
    assert DropMissing(tags[1..]) == [];
    if exists c :: c in countries && c.cca3 == Some(code) {
      var c :| c in countries && c.cca3 == Some(code);
      var i :| 0 <= i < |countries| && countries[i] == c;
    }
  }

  /** When no catalog country carries a cca3, no border resolves. */
  lemma {:induction false} NoCca3NoBorders(countries: seq<Country>, borders: seq<string>)
    requires forall c :: c in countries ==> c.cca3.None?
    ensures ResolveBorders(countries, borders) == []
    decreases |borders|
  {
    if |borders| == 0 {
      assert ResolveBorders(countries, borders) == DropMissing([]);
    } else {
      assert borders == [borders[0]] + borders[1..];
      ResolveBordersAppend(countries, [borders[0]], borders[1..]);
      ResolveBordersSingle(countries, borders[0]);
      NoCca3NoBorders(countries, borders[1..]);
    }
  }
}
