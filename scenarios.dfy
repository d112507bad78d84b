/**
 * Worked examples: a two-country catalog in which France lists three border
 * codes, only one of which is the cca3 of a catalog country.
 */
module Scenarios {
  import opened Wrappers
  import opened CountryModel
  import opened FilterEngine
  import opened BorderResolver

  /** ASCII lower-casing, one possible `toLowerCase`. */
  function AsciiLower(ch: char): char {
    if 'A' <= ch <= 'Z' then (ch as int + 32) as char else ch
  }

  function Sample(name: string, cca3: string, borders: seq<string>): Country {
    Country(name, name, 0, "Europe", "Unknown", Some(Unknown), Some(Unknown), Unknown, Unknown, borders, "", Some(cca3))
  }

  const France: Country := Sample("France", "FRA", ["DEU", "ESP", "XXX"])
  const Germany: Country := Sample("Germany", "DEU", [])

  /** Spain is not in the catalog and "XXX" is no code at all: only Germany resolves, named twice. */
  lemma FranceBorders()
    ensures ResolveBorders([France, Germany], France.borders) == [BorderLink("Germany", "Germany")]
  {
    var catalog := [France, Germany];
    assert France.borders == ["DEU"] + ["ESP"] + ["XXX"];
    ResolveBordersAppend(catalog, ["DEU"] + ["ESP"], ["XXX"]);
    ResolveBordersAppend(catalog, ["DEU"], ["ESP"]);
    assert catalog[1].cca3 == Some("DEU");
    ResolveBordersSingle(catalog, "DEU");
    ResolveBordersSingle(catalog, "ESP");
    ResolveBordersSingle(catalog, "XXX");
  }

  lemma LowerNames()
    ensures Lower(AsciiLower, "France") == "france"
    ensures Lower(AsciiLower, "Germany") == "germany"
  {
    assert AsciiLower('F') == 'f' && AsciiLower('G') == 'g';
    assert AsciiLower('r') == 'r' && AsciiLower('a') == 'a' && AsciiLower('n') == 'n';
    assert AsciiLower('c') == 'c' && AsciiLower('e') == 'e';
    assert AsciiLower('m') == 'm' && AsciiLower('y') == 'y';
  }

  /** "fra" matches France case-insensitively and not Germany. */
  lemma SearchFra()
    ensures Filter(AsciiLower, [France, Germany], "fra", "") == [France]
  {
    LowerNames();
    assert "france"[..3] == "fra";
    MissingFirstChar("germany", "fra");
  }

  /** The region alone keeps both countries, in catalog order. */
  lemma RegionEurope()
    ensures Filter(AsciiLower, [France, Germany], "", "Europe") == [France, Germany]
  {
  }

  /** No country contains "zz": the result is empty. */
  lemma SearchZz()
    ensures Filter(AsciiLower, [France, Germany], "zz", "") == []
  {
    LowerNames();
    MissingFirstChar("france", "zz");
    MissingFirstChar("germany", "zz");
  }

  /** A text lacking the needle's first character does not include the needle. */
  lemma {:induction false} MissingFirstChar(hay: string, needle: string)
    requires |needle| > 0 && needle[0] !in hay
    ensures !Includes(hay, needle)
    decreases |hay|
  {
    if |hay| > 0 {
      assert hay[0] in hay;
      if |needle| <= |hay| {
        assert hay[..|needle|][0] == hay[0];
      }
      assert forall ch :: ch in hay[1..] ==> ch in hay;
      MissingFirstChar(hay[1..], needle);
    }
  }
}
