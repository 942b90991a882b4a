/** The country-flag lookup `getCountryFlag`. Its three copies have the same 34 keys and the
    same lookup. The glyphs are emoji strings; those of js/geoUtils.js are mis-encoded but
    still distinct per entry (only "GB" and "UK" share one), so here a glyph is a token: the
    globe, or the flag of a region named by its two-letter code. */
module CountryFlags {
  import opened JsText

  datatype Glyph = Globe | RegionFlag(region: string)

  /** The 34 codes of the table, each with its glyph; "UK" shows the flag of "GB". */
  const FlagTable: map<string, Glyph> := map[
    "BH" := RegionFlag("BH"), "US" := RegionFlag("US"), "GB" := RegionFlag("GB"),
    "UK" := RegionFlag("GB"), "CA" := RegionFlag("CA"), "AU" := RegionFlag("AU"),
    "IN" := RegionFlag("IN"), "JP" := RegionFlag("JP"), "CN" := RegionFlag("CN"),
    "FR" := RegionFlag("FR"), "DE" := RegionFlag("DE"), "IT" := RegionFlag("IT"),
    "ES" := RegionFlag("ES"),
    "SA" := RegionFlag("SA"), "AE" := RegionFlag("AE"), "KW" := RegionFlag("KW"),
    "QA" := RegionFlag("QA"), "OM" := RegionFlag("OM"), "EG" := RegionFlag("EG"),
    "JO" := RegionFlag("JO"), "LB" := RegionFlag("LB"), "SY" := RegionFlag("SY"),
    "IQ" := RegionFlag("IQ"), "IR" := RegionFlag("IR"),
    "RU" := RegionFlag("RU"), "BR" := RegionFlag("BR"), "MX" := RegionFlag("MX"),
    "KR" := RegionFlag("KR"), "ID" := RegionFlag("ID"), "TH" := RegionFlag("TH"),
    "SG" := RegionFlag("SG"), "MY" := RegionFlag("MY"), "TR" := RegionFlag("TR"),
    "ZA" := RegionFlag("ZA")
  ]

  /** `getCountryFlag(code)`: the globe for a missing or empty code, otherwise the table's
      glyph for the upper-cased code, and the globe for a code the table does not know. */
  function CountryFlag(code: Field): (g: Glyph)
    ensures !Truthy(code) ==> g == Globe
    ensures Truthy(code) && Upper(code.s) in FlagTable ==> g == FlagTable[Upper(code.s)]
    ensures Truthy(code) && Upper(code.s) !in FlagTable ==> g == Globe
  {
    if !Truthy(code) then Globe
    else
      var upper := Upper(code.s);
      if upper in FlagTable then FlagTable[upper] else Globe
  }

  /** Every glyph in the table is a region flag. */
  lemma TableHasNoGlobe(c: string)
    requires c in FlagTable
    ensures FlagTable[c].RegionFlag?
  {
  }

  /** A code shows a region flag exactly when it is present, non-empty and, upper-cased,
      one of the table's codes. */
  lemma FlagShownIffKnown(code: Field)
    ensures CountryFlag(code) != Globe <==> Truthy(code) && Upper(code.s) in FlagTable
  {
    if Truthy(code) && Upper(code.s) in FlagTable {
      TableHasNoGlobe(Upper(code.s));
    }
  }

  /** The lookup ignores case: a code and its upper-cased form show the same glyph. */
  lemma {:induction false} CaseInsensitive(s: string)
    ensures CountryFlag(Text(s)) == CountryFlag(Text(Upper(s)))
  {
    UpperAt(s);
    UpperIdempotent(s);
  }

  /** Lower-case and mixed-case spellings of a code find the same glyph. */
  lemma LowerCaseCodes()
    ensures CountryFlag(Text("bh")) == RegionFlag("BH")
    ensures CountryFlag(Text("Us")) == RegionFlag("US")
    ensures CountryFlag(Text("zz")) == Globe
    ensures CountryFlag(Text("")) == Globe && CountryFlag(Missing) == Globe
  {
    assert Upper("bh") == "BH";
    assert Upper("Us") == "US";
    assert Upper("zz") == "ZZ";
  }

  /** "GB" and "UK", in any case, show the same glyph. */
  lemma GreatBritainAlias()
    ensures CountryFlag(Text("GB")) == CountryFlag(Text("UK")) == RegionFlag("GB")
    ensures CountryFlag(Text("uk")) == CountryFlag(Text("gb"))
  {
    KnownCode("GB");
    KnownCode("UK");
    CaseInsensitive("uk");
    CaseInsensitive("gb");
    assert Upper("uk") == "UK";
    assert Upper("gb") == "GB";
  }

  /** A code of the table, written in capitals, shows its own table entry. */
  lemma KnownCode(c: string)
    requires c in FlagTable && Upper(c) == c
    ensures CountryFlag(Text(c)) == FlagTable[c]
  {
  }
}
