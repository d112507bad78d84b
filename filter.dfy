/**
 * The search and region filter of `CountriesApp.filterCountries`
 * (js/app/CountriesApp.js:127-136). `toLowerCase` is a parameter `lower`
 * applied to each character; `includes` is substring containment.
 */
module FilterEngine {
  import opened CountryModel

  /** `s.toLowerCase()` for a per-character mapping `lower`. */
  function Lower(lower: char -> char, s: string): string {
    seq(|s|, i requires 0 <= i < |s| => lower(s[i]))
  }

  predicate StartsWith(s: string, prefix: string) {
    |prefix| <= |s| && s[..|prefix|] == prefix
  }

  /** `hay.includes(needle)`. */
  predicate Includes(hay: string, needle: string)
    decreases |hay|
  {
    StartsWith(hay, needle) || (|hay| > 0 && Includes(hay[1..], needle))
  }

  /** The filter callback of lines 131-136, for an already lower-cased search term. */
  predicate Matches(lower: char -> char, c: Country, searchTerm: string, regionFilter: string) {
    && Includes(Lower(lower, c.name), searchTerm)
    && (regionFilter == "" || c.region == regionFilter)
  }

  /** `s` can be obtained from `t` by deleting elements, keeping the rest in order. */
  ghost predicate IsSubsequence<T>(s: seq<T>, t: seq<T>)
    decreases |t|
  {
    || s == []
    || (|t| > 0 && ((s[0] == t[0] && IsSubsequence(s[1..], t[1..])) || IsSubsequence(s, t[1..])))
  }

  /** `countries.filter(...)` of lines 131-136. */
  function Filter(lower: char -> char, countries: seq<Country>, searchTerm: string, regionFilter: string): (r: seq<Country>)
    ensures |r| <= |countries|
    ensures IsSubsequence(r, countries)
    ensures forall c :: c in r <==> c in countries && Matches(lower, c, searchTerm, regionFilter)
    decreases |countries|
  {
    if |countries| == 0 then []
    else
      var rest := Filter(lower, countries[1..], searchTerm, regionFilter);
      assert forall c :: c in countries <==> c == countries[0] || c in countries[1..];
      if Matches(lower, countries[0], searchTerm, regionFilter) then
        assert ([countries[0]] + rest)[1..] == rest;
        [countries[0]] + rest
      else rest
  }

  lemma IncludesEmpty(hay: string)
    ensures Includes(hay, "")
  {
  }

  /** An empty search term and an empty region keep the whole catalog, in catalog order. */
  lemma {:induction false} FilterEverything(lower: char -> char, countries: seq<Country>)
    ensures Filter(lower, countries, "", "") == countries
    decreases |countries|
  {
    if |countries| > 0 {
      IncludesEmpty(Lower(lower, countries[0].name));
      FilterEverything(lower, countries[1..]);
    }
  }

  /** Filtering the result again with the same term and region changes nothing. */
  lemma {:induction false} FilterIdempotent(lower: char -> char, countries: seq<Country>, searchTerm: string, regionFilter: string)
    ensures var once := Filter(lower, countries, searchTerm, regionFilter);
            Filter(lower, once, searchTerm, regionFilter) == once
    decreases |countries|
  {
    if |countries| > 0 {
      FilterIdempotent(lower, countries[1..], searchTerm, regionFilter);
      var rest := Filter(lower, countries[1..], searchTerm, regionFilter);
      if Matches(lower, countries[0], searchTerm, regionFilter) {
        assert ([countries[0]] + rest)[1..] == rest;
      }
    }
  }

  /** Filtering distributes over concatenation: relative order is never changed. */
  lemma {:induction false} FilterAppend(lower: char -> char, a: seq<Country>, b: seq<Country>, searchTerm: string, regionFilter: string)
    ensures Filter(lower, a + b, searchTerm, regionFilter)
         == Filter(lower, a, searchTerm, regionFilter) + Filter(lower, b, searchTerm, regionFilter)
    decreases |a|
  {
    if |a| > 0 {
      assert (a + b)[0] == a[0];
      assert (a + b)[1..] == a[1..] + b;
      FilterAppend(lower, a[1..], b, searchTerm, regionFilter);
    } else {
      assert a + b == b;
    }
  }
}
