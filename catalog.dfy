/**
 * The catalog build of js/app/CountriesApp.js:115: every raw record is
 * normalised and the result is sorted by name with
 * `(a, b) => a.name.localeCompare(b.name)`.
 *
 * `localeCompare` is a parameter `cmp`; the array sort is stable, and is
 * modelled as a stable insertion sort ordered by `cmp(a.name, b.name) <= 0`.
 */
module Catalog {
  import opened Wrappers
  import opened CountryModel

  /** A three-way string comparison in the manner of `localeCompare`. */
  type Comparator = (string, string) -> int

  /** `a` may precede `b`. */
  predicate Le(cmp: Comparator, a: Country, b: Country) {
    cmp(a.name, b.name) <= 0
  }

  /**
   * A consistent comparator in the sense of the array sort: the sign of
   * `cmp(y, x)` is the opposite of that of `cmp(x, y)`, and "not after" is
   * total and transitive.
   */
  ghost predicate IsTotalPreorder(cmp: Comparator) {
    && (forall x, y :: cmp(x, y) < 0 <==> cmp(y, x) > 0)
    && (forall x, y :: cmp(x, y) <= 0 || cmp(y, x) <= 0)
    && (forall x, y, z :: cmp(x, y) <= 0 && cmp(y, z) <= 0 ==> cmp(x, z) <= 0)
  }

  ghost predicate Sorted(cmp: Comparator, s: seq<Country>) {
    forall i, j :: 0 <= i < j < |s| ==> Le(cmp, s[i], s[j])
  }

  /** Inserts `x` before the first element it does not follow. */
  function Insert(cmp: Comparator, x: Country, s: seq<Country>): (r: seq<Country>)
    ensures multiset(r) == multiset(s) + multiset{x}
    decreases |s|
  {
    if |s| == 0 then [x]
    else if Le(cmp, x, s[0]) then [x] + s
    else
      assert s == [s[0]] + s[1..];
      [s[0]] + Insert(cmp, x, s[1..])
  }

  /** The array sort of line 115. */
  function Sort(cmp: Comparator, s: seq<Country>): (r: seq<Country>)
    ensures multiset(r) == multiset(s)
    decreases |s|
  {
    if |s| == 0 then []
    else
      assert s == [s[0]] + s[1..];
      Insert(cmp, s[0], Sort(cmp, s[1..]))
  }

  /** Every element of `s` may follow `x`. */
  ghost predicate Precedes(cmp: Comparator, x: Country, s: seq<Country>) {
    forall k :: 0 <= k < |s| ==> Le(cmp, x, s[k])
  }

  /** Prepending an element every other may follow keeps a list sorted. */
  lemma SortedCons(cmp: Comparator, x: Country, s: seq<Country>)
    requires Sorted(cmp, s) && Precedes(cmp, x, s)
    ensures Sorted(cmp, [x] + s)
  {
  }

  /** By transitivity, what may precede the head of a sorted list may precede all of it. */
  lemma PrecedesBySorted(cmp: Comparator, x: Country, s: seq<Country>)
    requires IsTotalPreorder(cmp) && Sorted(cmp, s) && |s| > 0 && Le(cmp, x, s[0])
    ensures Precedes(cmp, x, s)
  {
  }

  /** Inserting an element that may follow `y` keeps `y` ahead of the whole list. */
  lemma PrecedesInsert(cmp: Comparator, y: Country, x: Country, s: seq<Country>)
    requires Precedes(cmp, y, s) && Le(cmp, y, x)
    ensures Precedes(cmp, y, Insert(cmp, x, s))
  {
  }

  lemma {:induction false} InsertSorted(cmp: Comparator, x: Country, s: seq<Country>)
    requires IsTotalPreorder(cmp) && Sorted(cmp, s)
    ensures Sorted(cmp, Insert(cmp, x, s))
    decreases |s|
  {
    if |s| == 0 {
    } else if Le(cmp, x, s[0]) {
      PrecedesBySorted(cmp, x, s);
      SortedCons(cmp, x, s);
    } else {
      assert Sorted(cmp, s[1..]);
      InsertSorted(cmp, x, s[1..]);
      assert Precedes(cmp, s[0], s[1..]);
      PrecedesInsert(cmp, s[0], x, s[1..]);
      SortedCons(cmp, s[0], Insert(cmp, x, s[1..]));
    }
  }

  lemma {:induction false} SortSorted(cmp: Comparator, s: seq<Country>)
    requires IsTotalPreorder(cmp)
    ensures Sorted(cmp, Sort(cmp, s))
    decreases |s|
  {
    if |s| > 0 {
      SortSorted(cmp, s[1..]);
      InsertSorted(cmp, s[0], Sort(cmp, s[1..]));
    }
  }

  /** `data.map(countryData => new Country(countryData))`; one failing record fails the whole map. */
  function NormalizeAll(data: seq<RawCountry>): (r: Option<seq<Country>>)
    ensures r.Some? <==> forall i :: 0 <= i < |data| ==> data[i].name.Some?
    ensures r.Some? ==> |r.value| == |data| && forall i :: 0 <= i < |data| ==> Normalize(data[i]) == Some(r.value[i])
    decreases |data|
  {
    if |data| == 0 then Some([])
    else
      match Normalize(data[0])
      case None => None
      case Some(c) =>
        match NormalizeAll(data[1..])
        case None => None
        case Some(rest) => Some([c] + rest)
  }

  /** The catalog of line 115, or `None` when the constructor throws on some record. */
  function BuildCatalog(cmp: Comparator, data: seq<RawCountry>): Option<seq<Country>> {
    match NormalizeAll(data)
    case None => None
    case Some(cs) => Some(Sort(cmp, cs))
  }

  /**
   * The catalog has as many countries as the raw list, is a permutation of
   * the normalised records and is sorted by name.
   */
  lemma BuildCatalogSpec(cmp: Comparator, data: seq<RawCountry>)
    requires IsTotalPreorder(cmp)
    ensures BuildCatalog(cmp, data).Some? <==> forall i :: 0 <= i < |data| ==> data[i].name.Some?
    ensures BuildCatalog(cmp, data).Some? ==>
              && |BuildCatalog(cmp, data).value| == |data|
              && multiset(BuildCatalog(cmp, data).value) == multiset(NormalizeAll(data).value)
              && Sorted(cmp, BuildCatalog(cmp, data).value)
  {
    if NormalizeAll(data).Some? {
      var cs := NormalizeAll(data).value;
      SortSorted(cmp, cs);
      assert |Sort(cmp, cs)| == |multiset(Sort(cmp, cs))| == |cs|;
    }
  }

  /** Every catalog country is the normalisation of some raw record. */
  lemma BuildCatalogMembers(cmp: Comparator, data: seq<RawCountry>, c: Country)
    requires BuildCatalog(cmp, data).Some? && c in BuildCatalog(cmp, data).value
    ensures exists i :: 0 <= i < |data| && Normalize(data[i]) == Some(c)
  {
    var cs := NormalizeAll(data).value;
    assert c in multiset(Sort(cmp, cs));
    assert c in cs;
    var i :| 0 <= i < |cs| && cs[i] == c;
    assert Normalize(data[i]) == Some(c);
  }
}
