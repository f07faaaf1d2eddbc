/** The reference table of South American countries and its name index
    (script.js:11-28). */
module Countries {
  import opened Wrappers

  /** One row of the table: the join name used by the map features, the
      ISO 3166-1 alpha-2 country code and the ISO 4217 currency code. */
  datatype CountryInfo = CountryInfo(name: string, iso2: string, currency: string)

  /** The thirteen rows, in source order. French Guiana is a territory and
      pays in euros; Ecuador pays in US dollars. */
  const SouthAmerica: seq<CountryInfo> := [
    CountryInfo("Argentina", "AR", "ARS"),
    CountryInfo("Bolivia", "BO", "BOB"),
    CountryInfo("Brazil", "BR", "BRL"),
    CountryInfo("Chile", "CL", "CLP"),
    CountryInfo("Colombia", "CO", "COP"),
    CountryInfo("Ecuador", "EC", "USD"),
    CountryInfo("Guyana", "GY", "GYD"),
    CountryInfo("Paraguay", "PY", "PYG"),
    CountryInfo("Peru", "PE", "PEN"),
    CountryInfo("Suriname", "SR", "SRD"),
    CountryInfo("Uruguay", "UY", "UYU"),
    CountryInfo("Venezuela", "VE", "VES"),
    CountryInfo("French Guiana", "GF", "EUR")
  ]

  /** No later row has the same name as row i. */
  predicate LastWithName(rows: seq<CountryInfo>, i: nat)
    requires i < |rows|
  {
    forall j :: i < j < |rows| ==> rows[j].name != rows[i].name
  }

  /** Building a Map from `[name, row]` entries, one entry after another. */
  function BuildIndex(rows: seq<CountryInfo>): map<string, CountryInfo> {
    if rows == [] then map[]
    else
      var last := rows[|rows| - 1];
      BuildIndex(rows[..|rows| - 1])[last.name := last]
  }

  /** Every name of the rows becomes a key of the index and every key maps
      to a row carrying that name. */
  lemma {:induction false} BuildIndexSound(rows: seq<CountryInfo>)
    ensures forall i :: 0 <= i < |rows| ==> rows[i].name in BuildIndex(rows)
    ensures forall k :: k in BuildIndex(rows) ==> BuildIndex(rows)[k].name == k && BuildIndex(rows)[k] in rows
  {
    if rows != [] {
      var n := |rows| - 1;
      var prefix := rows[..n];
      BuildIndexSound(prefix);
      forall i | 0 <= i < |rows| ensures rows[i].name in BuildIndex(rows) {
        if i < n { assert rows[i] == prefix[i]; }
      }
    }
  }

  /** When two rows share a name the later one wins, so a row whose name
      does not come again is what the index gives for that name. */
  lemma {:induction false} BuildIndexLastWins(rows: seq<CountryInfo>, i: nat)
    requires i < |rows| && LastWithName(rows, i)
    ensures rows[i].name in BuildIndex(rows) && BuildIndex(rows)[rows[i].name] == rows[i]
  {
    var n := |rows| - 1;
    if i < n {
      var prefix := rows[..n];
      assert prefix[i] == rows[i];
      assert LastWithName(prefix, i) by {
        forall j | i < j < |prefix| ensures prefix[j].name != prefix[i].name {
          assert prefix[j] == rows[j];
        }
      }
      BuildIndexLastWins(prefix, i);
      assert rows[n].name != rows[i].name;
    }
  }

  /** NAME_TO_INFO: the table indexed by name. */
  const NameToInfo: map<string, CountryInfo> := BuildIndex(SouthAmerica)

  /** `NAME_TO_INFO.get(name)`: the row of that name, or nothing when the
      name is not in the table. */
  function Lookup(name: string): (r: Option<CountryInfo>)
    ensures r.Some? ==> r.value.name == name
  {
    BuildIndexSound(SouthAmerica);
    if name in NameToInfo then Some(NameToInfo[name]) else None
  }

  /** `new Set(SOUTH_AMERICA.map((c) => c.name))`, the names the map keeps. */
  function WantedNames(): set<string> {
    set c | c in SouthAmerica :: c.name
  }

  /** The label shown for a country: three names are translated to Spanish,
      every other name is shown as it is. */
  function DisplayName(name: string): string {
    if name == "Brazil" then "Brasil"
    else if name == "Peru" then "Perú"
    else if name == "French Guiana" then "Guayana Francesa"
    else name
  }

  /** The country meta line. */
  function Meta(currency: string): string {
    "Moneda: " + currency + " · Base: USD"
  }

  predicate IsUpperAscii(s: string) {
    forall i :: 0 <= i < |s| ==> 'A' <= s[i] <= 'Z'
  }

  predicate IsLowerAscii(s: string) {
    forall i :: 0 <= i < |s| ==> 'a' <= s[i] <= 'z'
  }

  function LowerChar(c: char): char {
    if 'A' <= c <= 'Z' then (c as int + 32) as char else c
  }

  /** `String.prototype.toLowerCase` on ASCII text: each capital letter is
      replaced by its small letter and nothing else changes. */
  function ToLower(s: string): (r: string)
    ensures |r| == |s|
    ensures forall i :: 0 <= i < |s| ==> r[i] == LowerChar(s[i])
  {
    if s == [] then [] else [LowerChar(s[0])] + ToLower(s[1..])
  }

  /** The flag image of a country, from its alpha-2 code. */
  function FlagUrl(iso2: string): string {
    "https://flagcdn.com/w40/" + ToLower(iso2) + ".png"
  }

  /** The table rows have pairwise distinct names, codes and two-letter
      capital codes, and three-letter capital currency codes. */
  lemma TableWellFormed()
    ensures |SouthAmerica| == 13
    ensures forall i, j :: 0 <= i < j < |SouthAmerica| ==>
      SouthAmerica[i].name != SouthAmerica[j].name && SouthAmerica[i].iso2 != SouthAmerica[j].iso2
    ensures forall i :: 0 <= i < |SouthAmerica| ==>
      |SouthAmerica[i].iso2| == 2 && IsUpperAscii(SouthAmerica[i].iso2) &&
      |SouthAmerica[i].currency| == 3 && IsUpperAscii(SouthAmerica[i].currency)
  {
  }

  /** Every row of the table is found under its own name. */
  lemma LookupRow(i: nat)
    requires i < |SouthAmerica|
    ensures Lookup(SouthAmerica[i].name) == Some(SouthAmerica[i])
  {
    TableWellFormed();
    BuildIndexLastWins(SouthAmerica, i);
  }

  /** The set of names the map filter keeps and the keys of the index are
      the same set. */
  lemma WantedNamesAreIndexed(name: string)
    ensures name in WantedNames() <==> Lookup(name).Some?
    ensures Lookup(name).Some? ==> Lookup(name).value in SouthAmerica
  {
    BuildIndexSound(SouthAmerica);
  }

  /** Lower-casing is one-to-one on capital codes: two codes with the same
      lower-case spelling are the same code. */
  lemma ToLowerInjective(s: string, t: string)
    requires IsUpperAscii(s) && IsUpperAscii(t)
    requires ToLower(s) == ToLower(t)
    ensures s == t
  {
  }

  /** Distinct countries of the table get distinct flag images. */
  lemma FlagUrlsDistinct(i: nat, j: nat)
    requires i < j < |SouthAmerica|
    ensures FlagUrl(SouthAmerica[i].iso2) != FlagUrl(SouthAmerica[j].iso2)
  {
    TableWellFormed();
    var a, b := SouthAmerica[i].iso2, SouthAmerica[j].iso2;
    if FlagUrl(a) == FlagUrl(b) {
      var n := |"https://flagcdn.com/w40/"|;
      assert ToLower(a) == FlagUrl(a)[n..n + 2];
      assert ToLower(b) == FlagUrl(b)[n..n + 2];
      ToLowerInjective(a, b);
    }
  }

  /** Distinct countries of the table get distinct labels. */
  lemma DisplayNamesDistinct(i: nat, j: nat)
    requires i < j < |SouthAmerica|
    ensures DisplayName(SouthAmerica[i].name) != DisplayName(SouthAmerica[j].name)
  {
  }
}
