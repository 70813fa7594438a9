/** The state map: the two lookup tables between state codes and the
    region names the map draws, the click callback, the per-region series
    with its selection highlight, and the tooltip's percentage.

    Fetching the region outlines and drawing them are not modelled. */
module MapChart {
  import opened Wrappers
  import opened Types
  import Grouping

  /** `convertSiglaToName`'s table, code to full name. */
  const SiglaMap: map<string, string> := map[
    "SP" := "S\U{00E3}o Paulo", "RJ" := "Rio de Janeiro", "MG" := "Minas Gerais", "RS" := "Rio Grande do Sul",
    "PR" := "Paran\U{00E1}", "SC" := "Santa Catarina", "BA" := "Bahia", "CE" := "Cear\U{00E1}",
    "PE" := "Pernambuco", "GO" := "Goi\U{00E1}s", "DF" := "Distrito Federal", "ES" := "Esp\U{00ED}rito Santo",
    "AM" := "Amazonas", "PA" := "Par\U{00E1}", "MT" := "Mato Grosso", "MS" := "Mato Grosso do Sul",
    "MA" := "Maranh\U{00E3}o", "PB" := "Para\U{00ED}ba", "RN" := "Rio Grande do Norte", "AL" := "Alagoas",
    "PI" := "Piau\U{00ED}", "SE" := "Sergipe", "RO" := "Rond\U{00F4}nia", "TO" := "Tocantins",
    "AC" := "Acre", "AP" := "Amap\U{00E1}", "RR" := "Roraima"]

  /** `convertNameToSigla`'s table, full name to code. */
  const NameMap: map<string, string> := map[
    "S\U{00E3}o Paulo" := "SP", "Rio de Janeiro" := "RJ", "Minas Gerais" := "MG", "Rio Grande do Sul" := "RS",
    "Paran\U{00E1}" := "PR", "Santa Catarina" := "SC", "Bahia" := "BA", "Cear\U{00E1}" := "CE",
    "Pernambuco" := "PE", "Goi\U{00E1}s" := "GO", "Distrito Federal" := "DF", "Esp\U{00ED}rito Santo" := "ES",
    "Amazonas" := "AM", "Par\U{00E1}" := "PA", "Mato Grosso" := "MT", "Mato Grosso do Sul" := "MS",
    "Maranh\U{00E3}o" := "MA", "Para\U{00ED}ba" := "PB", "Rio Grande do Norte" := "RN", "Alagoas" := "AL",
    "Piau\U{00ED}" := "PI", "Sergipe" := "SE", "Rond\U{00F4}nia" := "RO", "Tocantins" := "TO",
    "Acre" := "AC", "Amap\U{00E1}" := "AP", "Roraima" := "RR"]

  /** A code becomes its full name; anything the table lacks comes back as is. */
  function SiglaToName(s: string): (r: string)
    ensures s !in SiglaMap ==> r == s
  {
    if s in SiglaMap then SiglaMap[s] else s
  }

  /** A full name becomes its code; anything the table lacks comes back as is. */
  function NameToSigla(s: string): (r: string)
    ensures s !in NameMap ==> r == s
  {
    if s in NameMap then NameMap[s] else s
  }

  // Proof scaffolding for CodeRoundTrip and NameRoundTrip: one literal
  // fact per state, saying the two tables pair the same code and name.

  lemma AgreeSP() ensures SiglaToName("SP") == "S\U{00E3}o Paulo" && NameToSigla("S\U{00E3}o Paulo") == "SP" {}
  lemma AgreeRJ() ensures SiglaToName("RJ") == "Rio de Janeiro" && NameToSigla("Rio de Janeiro") == "RJ" {}
  lemma AgreeMG() ensures SiglaToName("MG") == "Minas Gerais" && NameToSigla("Minas Gerais") == "MG" {}
  lemma AgreeRS() ensures SiglaToName("RS") == "Rio Grande do Sul" && NameToSigla("Rio Grande do Sul") == "RS" {}
  lemma AgreePR() ensures SiglaToName("PR") == "Paran\U{00E1}" && NameToSigla("Paran\U{00E1}") == "PR" {}
  lemma AgreeSC() ensures SiglaToName("SC") == "Santa Catarina" && NameToSigla("Santa Catarina") == "SC" {}
  lemma AgreeBA() ensures SiglaToName("BA") == "Bahia" && NameToSigla("Bahia") == "BA" {}
  lemma AgreeCE() ensures SiglaToName("CE") == "Cear\U{00E1}" && NameToSigla("Cear\U{00E1}") == "CE" {}
  lemma AgreePE() ensures SiglaToName("PE") == "Pernambuco" && NameToSigla("Pernambuco") == "PE" {}
  lemma AgreeGO() ensures SiglaToName("GO") == "Goi\U{00E1}s" && NameToSigla("Goi\U{00E1}s") == "GO" {}
  lemma AgreeDF() ensures SiglaToName("DF") == "Distrito Federal" && NameToSigla("Distrito Federal") == "DF" {}
  lemma AgreeES() ensures SiglaToName("ES") == "Esp\U{00ED}rito Santo" && NameToSigla("Esp\U{00ED}rito Santo") == "ES" {}
  lemma AgreeAM() ensures SiglaToName("AM") == "Amazonas" && NameToSigla("Amazonas") == "AM" {}
  lemma AgreePA() ensures SiglaToName("PA") == "Par\U{00E1}" && NameToSigla("Par\U{00E1}") == "PA" {}
  lemma AgreeMT() ensures SiglaToName("MT") == "Mato Grosso" && NameToSigla("Mato Grosso") == "MT" {}
  lemma AgreeMS() ensures SiglaToName("MS") == "Mato Grosso do Sul" && NameToSigla("Mato Grosso do Sul") == "MS" {}
  lemma AgreeMA() ensures SiglaToName("MA") == "Maranh\U{00E3}o" && NameToSigla("Maranh\U{00E3}o") == "MA" {}
  lemma AgreePB() ensures SiglaToName("PB") == "Para\U{00ED}ba" && NameToSigla("Para\U{00ED}ba") == "PB" {}
  lemma AgreeRN() ensures SiglaToName("RN") == "Rio Grande do Norte" && NameToSigla("Rio Grande do Norte") == "RN" {}
  lemma AgreeAL() ensures SiglaToName("AL") == "Alagoas" && NameToSigla("Alagoas") == "AL" {}
  lemma AgreePI() ensures SiglaToName("PI") == "Piau\U{00ED}" && NameToSigla("Piau\U{00ED}") == "PI" {}
  lemma AgreeSE() ensures SiglaToName("SE") == "Sergipe" && NameToSigla("Sergipe") == "SE" {}
  lemma AgreeRO() ensures SiglaToName("RO") == "Rond\U{00F4}nia" && NameToSigla("Rond\U{00F4}nia") == "RO" {}
  lemma AgreeTO() ensures SiglaToName("TO") == "Tocantins" && NameToSigla("Tocantins") == "TO" {}
  lemma AgreeAC() ensures SiglaToName("AC") == "Acre" && NameToSigla("Acre") == "AC" {}
  lemma AgreeAP() ensures SiglaToName("AP") == "Amap\U{00E1}" && NameToSigla("Amap\U{00E1}") == "AP" {}
  lemma AgreeRR() ensures SiglaToName("RR") == "Roraima" && NameToSigla("Roraima") == "RR" {}

  /** Every code survives the trip to its name and back, and its name is
      one the other table knows. */
  lemma CodeRoundTrip(s: string)
    requires s in SiglaMap
    ensures s != "" && SiglaToName(s) in NameMap
    ensures NameToSigla(SiglaToName(s)) == s
  {
    if s == "SP" { AgreeSP(); }
    else if s == "RJ" { AgreeRJ(); }
    else if s == "MG" { AgreeMG(); }
    else if s == "RS" { AgreeRS(); }
    else if s == "PR" { AgreePR(); }
    else if s == "SC" { AgreeSC(); }
    else if s == "BA" { AgreeBA(); }
    else if s == "CE" { AgreeCE(); }
    else if s == "PE" { AgreePE(); }
    else if s == "GO" { AgreeGO(); }
    else if s == "DF" { AgreeDF(); }
    else if s == "ES" { AgreeES(); }
    else if s == "AM" { AgreeAM(); }
    else if s == "PA" { AgreePA(); }
    else if s == "MT" { AgreeMT(); }
    else if s == "MS" { AgreeMS(); }
    else if s == "MA" { AgreeMA(); }
    else if s == "PB" { AgreePB(); }
    else if s == "RN" { AgreeRN(); }
    else if s == "AL" { AgreeAL(); }
    else if s == "PI" { AgreePI(); }
    else if s == "SE" { AgreeSE(); }
    else if s == "RO" { AgreeRO(); }
    else if s == "TO" { AgreeTO(); }
    else if s == "AC" { AgreeAC(); }
    else if s == "AP" { AgreeAP(); }
    else if s == "RR" { AgreeRR(); }
    else { assert false; }
  }

  /** Every full name survives the trip to its code and back, and its code
      is one the other table knows. */
  lemma NameRoundTrip(s: string)
    requires s in NameMap
    ensures NameToSigla(s) in SiglaMap
    ensures SiglaToName(NameToSigla(s)) == s
  {
    if s == "S\U{00E3}o Paulo" { AgreeSP(); }
    else if s == "Rio de Janeiro" { AgreeRJ(); }
    else if s == "Minas Gerais" { AgreeMG(); }
    else if s == "Rio Grande do Sul" { AgreeRS(); }
    else if s == "Paran\U{00E1}" { AgreePR(); }
    else if s == "Santa Catarina" { AgreeSC(); }
    else if s == "Bahia" { AgreeBA(); }
    else if s == "Cear\U{00E1}" { AgreeCE(); }
    else if s == "Pernambuco" { AgreePE(); }
    else if s == "Goi\U{00E1}s" { AgreeGO(); }
    else if s == "Distrito Federal" { AgreeDF(); }
    else if s == "Esp\U{00ED}rito Santo" { AgreeES(); }
    else if s == "Amazonas" { AgreeAM(); }
    else if s == "Par\U{00E1}" { AgreePA(); }
    else if s == "Mato Grosso" { AgreeMT(); }
    else if s == "Mato Grosso do Sul" { AgreeMS(); }
    else if s == "Maranh\U{00E3}o" { AgreeMA(); }
    else if s == "Para\U{00ED}ba" { AgreePB(); }
    else if s == "Rio Grande do Norte" { AgreeRN(); }
    else if s == "Alagoas" { AgreeAL(); }
    else if s == "Piau\U{00ED}" { AgreePI(); }
    else if s == "Sergipe" { AgreeSE(); }
    else if s == "Rond\U{00F4}nia" { AgreeRO(); }
    else if s == "Tocantins" { AgreeTO(); }
    else if s == "Acre" { AgreeAC(); }
    else if s == "Amap\U{00E1}" { AgreeAP(); }
    else if s == "Roraima" { AgreeRR(); }
    else { assert false; }
  }

  /** Distinct codes name distinct regions. */
  lemma CodesNameDistinctRegions(a: string, b: string)
    requires a in SiglaMap && b in SiglaMap && a != b
    ensures SiglaToName(a) != SiglaToName(b)
  {
    CodeRoundTrip(a);
    CodeRoundTrip(b);
  }

  /** The click callback: a click on a region with a name hands the
      handler the code for that name; without a handler or a name nothing
      is reported. */
  function OnChartClick(hasHandler: bool, regionName: string): (r: Option<string>)
    ensures r.Some? <==> hasHandler && regionName != ""
    ensures r.Some? && regionName !in NameMap ==> r.value == regionName
  {
    if hasHandler && regionName != "" then Some(NameToSigla(regionName)) else None
  }

  /** A click on a region the table knows reports a code whose full name
      is that region's name. */
  lemma ClickReportsCode(regionName: string)
    requires regionName in NameMap
    ensures OnChartClick(true, regionName).Some?
    ensures OnChartClick(true, regionName).value in SiglaMap
    ensures SiglaToName(OnChartClick(true, regionName).value) == regionName
  {
    NameRoundTrip(regionName);
  }

  /** A selection is set when it holds a non-empty code. */
  predicate IsSelected(sel: Option<string>) {
    sel.Some? && sel.value != ""
  }

  lemma KnownCodeRoundTrip(sel: Option<string>)
    ensures IsSelected(sel) && sel.value in SiglaMap ==> NameToSigla(SiglaToName(sel.value)) == sel.value
  {
    if IsSelected(sel) && sel.value in SiglaMap {
      CodeRoundTrip(sel.value);
    }
  }

  /** The highlight rule for a region drawn under `regionName`: with a
      known code selected, a region is highlighted exactly when its code
      is the selected one. */
  function Highlights(sel: Option<string>, regionName: string): (r: bool)
    ensures r ==> IsSelected(sel)
    ensures IsSelected(sel) && sel.value in SiglaMap ==> (r <==> NameToSigla(regionName) == sel.value)
  {
    KnownCodeRoundTrip(sel);
    IsSelected(sel)
    && (regionName == SiglaToName(sel.value) || NameToSigla(regionName) == sel.value)
  }

  /** One region of the map series. */
  datatype SeriesItem = SeriesItem(name: string, value: real, selected: bool, highlighted: bool)

  /** The series built from the chart data: one item per entry, in order. */
  function SeriesData(data: seq<Entry>, sel: Option<string>): (items: seq<SeriesItem>)
    ensures |items| == |data|
    ensures forall i :: 0 <= i < |data| ==>
      items[i].name == SiglaToName(data[i].name) && items[i].value == data[i].value
    ensures forall i :: 0 <= i < |data| ==>
      (items[i].selected <==> sel == Some(data[i].name))
      && (items[i].highlighted <==> Highlights(sel, items[i].name))
  {
    seq(|data|, i requires 0 <= i < |data| =>
      var name := SiglaToName(data[i].name);
      SeriesItem(name, data[i].value, sel == Some(data[i].name), Highlights(sel, name)))
  }

  /** With a state's code selected, a region drawn under that state's
      name is highlighted, and one drawn under another state's name is not. */
  lemma HighlightsExactlySelected(code: string, other: string)
    requires code in SiglaMap && other in SiglaMap
    ensures Highlights(Some(code), SiglaToName(other)) <==> other == code
  {
    CodeRoundTrip(code);
    CodeRoundTrip(other);
    if other != code {
      CodesNameDistinctRegions(code, other);
    }
  }

  /** An entry keyed by a code or by a full name is drawn under the same
      region name. */
  lemma SameRegion(code: string)
    requires code in SiglaMap
    ensures SiglaToName(SiglaToName(code)) == SiglaToName(code)
  {
    CodeRoundTrip(code);
    NameRoundTrip(SiglaToName(code));
  }

  /** With a state's code selected, exactly the entries keyed by that
      state's code or full name are highlighted among those keyed by any
      state's code or full name. */
  lemma SelectedStateHighlighted(data: seq<Entry>, code: string, other: string, i: nat)
    requires code in SiglaMap && other in SiglaMap && i < |data|
    requires data[i].name == other || data[i].name == SiglaToName(other)
    ensures SeriesData(data, Some(code))[i].highlighted <==> other == code
  {
    var items := SeriesData(data, Some(code));
    assert items[i].name == SiglaToName(data[i].name);
    SameRegion(other);
    assert items[i].name == SiglaToName(other);
    HighlightsExactlySelected(code, other);
  }

  /** Without a selection nothing is highlighted or selected. */
  lemma NothingSelected(data: seq<Entry>, i: nat)
    requires i < |data|
    ensures !SeriesData(data, None)[i].highlighted && !SeriesData(data, None)[i].selected
  {
  }

  /** Clicking a named region and selecting the code it reports
      highlights every entry keyed by that region's name. */
  lemma ClickHighlightsRegion(data: seq<Entry>, regionName: string, i: nat)
    requires regionName in NameMap && i < |data| && data[i].name == regionName
    ensures OnChartClick(true, regionName).Some?
    ensures SeriesData(data, OnChartClick(true, regionName))[i].highlighted
  {
    ClickReportsCode(regionName);
    var code := NameToSigla(regionName);
    SelectedStateHighlighted(data, code, code, i);
  }

  /** `total` is `Grouping.Total` of the chart data. With non-negative
      values no entry exceeds it. */
  lemma {:induction false} EntryWithinTotal(data: seq<Entry>, i: nat)
    requires forall j :: 0 <= j < |data| ==> data[j].value >= 0.0
    requires i < |data|
    ensures 0.0 <= data[i].value <= Grouping.Total(data)
  {
    TotalNonNegative(data[1..]);
    if i > 0 {
      EntryWithinTotal(data[1..], i - 1);
    }
  }

  lemma {:induction false} TotalNonNegative(data: seq<Entry>)
    requires forall j :: 0 <= j < |data| ==> data[j].value >= 0.0
    ensures Grouping.Total(data) >= 0.0
  {
    if |data| > 0 {
      TotalNonNegative(data[1..]);
    }
  }

  /** `toFixed(0)` on a number: the nearest integer, ties away from zero. */
  function ToFixed0(x: real): (n: int)
    ensures x >= 0.0 ==> n as real - 0.5 <= x < n as real + 0.5
    ensures x < 0.0 ==> n as real - 0.5 < x <= n as real + 0.5
  {
    if x >= 0.0 then (x + 0.5).Floor else -((-x + 0.5).Floor)
  }

  /** The percentage in the tooltip: present only when the total is
      positive and percentages are shown. */
  function PercentSuffix(value: real, total: real, showPercentage: bool): (r: Option<int>)
    ensures r.Some? <==> total > 0.0 && showPercentage
    ensures r.Some? ==> r.value == ToFixed0(value / total * 100.0)
  {
    if total > 0.0 && showPercentage then Some(ToFixed0(value / total * 100.0)) else None
  }

  /** The tooltip of a region: its name, its value (a region without data
      shows 0) and the optional percentage. */
  datatype Tooltip = Tooltip(name: string, value: real, percent: Option<int>)

  /** `value` is `None` for a region the data does not cover. */
  function TooltipFor(regionName: string, value: Option<real>, total: real, showPercentage: bool): (t: Tooltip)
    ensures t.name == regionName
    ensures value.None? ==> t.value == 0.0
    ensures value.Some? ==> t.value == value.value
    ensures t.percent.Some? <==> total > 0.0 && showPercentage
  {
    var v := value.GetOr(0.0);
    Tooltip(regionName, v, PercentSuffix(v, total, showPercentage))
  }

  /** A share of the total between nothing and everything reads as a
      percentage between 0 and 100. */
  lemma PercentInRange(value: real, total: real)
    requires total > 0.0 && 0.0 <= value <= total
    ensures PercentSuffix(value, total, true).Some?
    ensures 0 <= PercentSuffix(value, total, true).value <= 100
  {
    assert 0.0 <= value / total <= 1.0;
  }
}
