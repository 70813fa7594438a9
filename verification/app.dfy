/** The dashboard page: the category and state filters feeding the two
    metric computations, the state-click toggle, the conversion
    percentage, and the optimistic create and status-update handlers. */
module App {
  import opened Wrappers
  import opened Types
  import Seqs
  import Text
  import Currency
  import opened Aggregates
  import opened Dates
  import opened Grouping
  import opened DashboardLogic
  import opened DashboardChannel
  import OrderForm
  import CreateOrderModal
  import MapChart

  // ---------------------------------------------------------------------
  // Filters

  /** The category tabs. */
  datatype Category = Geral | Orglight | Perfil

  /** Whether a row belongs to a tab; the comparison is exact. */
  predicate InCategory(c: Category, r: SheetRow) {
    match c
    case Geral => true
    case Orglight => r.categoria == "ORGLIGHT"
    case Perfil => r.categoria == "PERFIL"
  }

  /** `categoryRows`. */
  function CategoryRows(rows: seq<SheetRow>, c: Category): (r: seq<SheetRow>)
    ensures |r| <= |rows|
    ensures forall x :: x in r <==> x in rows && InCategory(c, x)
  {
    Seqs.Filter(rows, (r: SheetRow) => InCategory(c, r))
  }

  /** The general tab keeps everything; the other two keep exactly the
      rows whose category is their literal, in their original order. */
  lemma CategoryFilter(rows: seq<SheetRow>, c: Category)
    ensures c == Geral ==> CategoryRows(rows, c) == rows
    ensures c == Orglight ==> CategoryRows(rows, c) == Seqs.Filter(rows, (r: SheetRow) => r.categoria == "ORGLIGHT")
    ensures c == Perfil ==> CategoryRows(rows, c) == Seqs.Filter(rows, (r: SheetRow) => r.categoria == "PERFIL")
    ensures forall r :: r in CategoryRows(rows, c) <==> r in rows && InCategory(c, r)
  {
    var p := (r: SheetRow) => InCategory(c, r);
    if c == Geral {
      Seqs.FilterKeepsAll(rows, p);
    } else if c == Orglight {
      Seqs.FilterCongruent(rows, p, (r: SheetRow) => r.categoria == "ORGLIGHT");
    } else {
      Seqs.FilterCongruent(rows, p, (r: SheetRow) => r.categoria == "PERFIL");
    }
  }

  /** `filteredRows` as written: with a state selected, the rows whose
      raw `estado` equals the selected code. */
  function FilteredRowsAsWritten(categoryRows: seq<SheetRow>, sel: Option<string>): (r: seq<SheetRow>)
    ensures !MapChart.IsSelected(sel) ==> r == categoryRows
    ensures forall x :: x in r <==> x in categoryRows && (MapChart.IsSelected(sel) ==> x.estado == sel.value)
  {
    if MapChart.IsSelected(sel) then Seqs.Filter(categoryRows, (x: SheetRow) => x.estado == sel.value)
    else categoryRows
  }

  /** Whether a row is drawn on the map in the region of the selected code. */
  function InRegion(code: string): SheetRow -> bool {
    KeyIs(ByEstado, MapChart.SiglaToName(code))
  }

  /** `filteredRows` as the map shows the states: with a state selected,
      the rows the map groups into that state's region. */
  function FilteredRows(categoryRows: seq<SheetRow>, sel: Option<string>): (r: seq<SheetRow>)
    ensures !MapChart.IsSelected(sel) ==> r == categoryRows
    ensures forall x :: x in r <==> x in categoryRows && (MapChart.IsSelected(sel) ==> InRegion(sel.value)(x))
  {
    if MapChart.IsSelected(sel) then Seqs.Filter(categoryRows, InRegion(sel.value))
    else categoryRows
  }

  /** The two metric sets of the page. */
  datatype View = View(mapMetrics: DashboardMetrics, kpiMetrics: DashboardMetrics)

  /** The page with the cards filtered by the region the map draws (the
      corrected state filter). Without a selection the cards show the
      same figures as the map. */
  function DashboardView(rows: seq<SheetRow>, c: Category, sel: Option<string>, now: Date, iso: string -> DateValue): (v: View)
    ensures !MapChart.IsSelected(sel) ==> v.kpiMetrics == v.mapMetrics
  {
    var categoryRows := CategoryRows(rows, c);
    View(CalculateMetrics(categoryRows, now, iso), CalculateMetrics(FilteredRows(categoryRows, sel), now, iso))
  }

  /** The page as written: the cards filtered by the raw `estado` text.
      It draws the same map as the corrected page, and without a selection
      its cards show the same figures as the map. */
  function DashboardViewAsWritten(rows: seq<SheetRow>, c: Category, sel: Option<string>, now: Date, iso: string -> DateValue): (v: View)
    ensures v.mapMetrics == DashboardView(rows, c, sel, now, iso).mapMetrics
    ensures !MapChart.IsSelected(sel) ==> v == DashboardView(rows, c, sel, now, iso)
  {
    var categoryRows := CategoryRows(rows, c);
    View(CalculateMetrics(categoryRows, now, iso), CalculateMetrics(FilteredRowsAsWritten(categoryRows, sel), now, iso))
  }

  /** The map always covers the whole category, under either state
      filter; without a selection the cards show the same figures as the
      map. */
  lemma MapIgnoresSelection(rows: seq<SheetRow>, c: Category, sel1: Option<string>, sel2: Option<string>, now: Date, iso: string -> DateValue)
    ensures DashboardView(rows, c, sel1, now, iso).mapMetrics == DashboardView(rows, c, sel2, now, iso).mapMetrics
    ensures DashboardViewAsWritten(rows, c, sel1, now, iso).mapMetrics == DashboardViewAsWritten(rows, c, sel2, now, iso).mapMetrics
    ensures DashboardView(rows, c, None, now, iso).kpiMetrics == DashboardView(rows, c, None, now, iso).mapMetrics
    ensures DashboardViewAsWritten(rows, c, None, now, iso).kpiMetrics == DashboardViewAsWritten(rows, c, None, now, iso).mapMetrics
  {
  }

  /** The quoted rows grouped under `name`. */
  function QuotedUnder(name: string): SheetRow -> bool {
    (r: SheetRow) => KeyIs(ByEstado, name)(r) && IsQuoted(r)
  }

  /** The active rows grouped under `name`. */
  function ActiveIn(name: string): SheetRow -> bool {
    (r: SheetRow) => IsActive(r) && KeyIs(ByEstado, name)(r)
  }

  /** With a state selected, the quoted card adds up exactly the quoted
      rows the map draws in that state's region, which is the value of
      that region's entry in the map series. */
  lemma SelectedCardMatchesRegion(rows: seq<SheetRow>, c: Category, code: string, now: Date, iso: string -> DateValue, i: nat)
    requires code != ""
    requires var v := DashboardView(rows, c, Some(code), now, iso);
      i < |v.mapMetrics.topStatesFechado| && v.mapMetrics.topStatesFechado[i].name == MapChart.SiglaToName(code)
    ensures var v := DashboardView(rows, c, Some(code), now, iso);
      v.kpiMetrics.volumeOrcado.total == v.mapMetrics.topStatesFechado[i].value
  {
    var categoryRows := CategoryRows(rows, c);
    var name := MapChart.SiglaToName(code);
    var v := DashboardView(rows, c, Some(code), now, iso);
    assert v.kpiMetrics == CalculateMetrics(Seqs.Filter(categoryRows, InRegion(code)), now, iso);
    assert v.mapMetrics == CalculateMetrics(categoryRows, now, iso);
    StatesChart(categoryRows, now, iso);
    QuotedCardOfRegion(categoryRows, code, now, iso);
    MapEntryOfRegion(categoryRows, name, i);
    RegionPredicatesAgree(categoryRows, name);
    TrySumCongruent(categoryRows, QuotedUnder(name), ActiveIn(name));
  }

  lemma RegionPredicatesAgree(rows: seq<SheetRow>, name: string)
    ensures forall i :: 0 <= i < |rows| ==> QuotedUnder(name)(rows[i]) == ActiveIn(name)(rows[i])
  {
    forall i | 0 <= i < |rows| ensures QuotedUnder(name)(rows[i]) == ActiveIn(name)(rows[i]) {
      QuotedIsActive(rows[i]);
    }
  }

  lemma StatesChart(rows: seq<SheetRow>, now: Date, iso: string -> DateValue)
    ensures CalculateMetrics(rows, now, iso).topStatesFechado == GroupBy(ActiveRows(rows), ByEstado)
  {
  }

  /** The quoted card over a region's rows adds up the quoted rows of the
      region. */
  lemma QuotedCardOfRegion(categoryRows: seq<SheetRow>, code: string, now: Date, iso: string -> DateValue)
    ensures CalculateMetrics(Seqs.Filter(categoryRows, InRegion(code)), now, iso).volumeOrcado.total
         == TrySum(categoryRows, QuotedUnder(MapChart.SiglaToName(code)))
  {
    var filtered := Seqs.Filter(categoryRows, InRegion(code));
    QuotedVolume(filtered, now, iso);
    TrySumCongruent(filtered, (r: SheetRow) => IsQuoted(r), IsQuoted);
    FilteredFigure(categoryRows, InRegion(code), IsQuoted, QuotedUnder(MapChart.SiglaToName(code)));
  }

  /** A state entry of the map series adds up the active rows grouped
      under its name. */
  lemma MapEntryOfRegion(categoryRows: seq<SheetRow>, name: string, i: nat)
    requires i < |GroupBy(ActiveRows(categoryRows), ByEstado)|
    requires GroupBy(ActiveRows(categoryRows), ByEstado)[i].name == name
    ensures GroupBy(ActiveRows(categoryRows), ByEstado)[i].value == TrySum(categoryRows, ActiveIn(name))
  {
    GroupByTotals(ActiveRows(categoryRows), ByEstado);
    FilteredFigure(categoryRows, IsActive, KeyIs(ByEstado, name), ActiveIn(name));
  }

  /** The filter as written keeps a row only when its raw `estado` is the
      selected code: a row spelled out as the full state name is dropped. */
  lemma StateFilterDropsSpelledOutRows(r1: SheetRow, r2: SheetRow)
    requires r1.estado == "SP" && r2.estado == "S\U{00E3}o Paulo"
    ensures FilteredRowsAsWritten([r1, r2], Some("SP")) == [r1]
  {
    var p := (x: SheetRow) => x.estado == "SP";
    assert FilteredRowsAsWritten([r1, r2], Some("SP")) == Seqs.Filter([r1, r2], p);
    Seqs.FilterCons(r1, [r2], p);
    Seqs.FilterSingleton(r2, p);
  }

  /** The map draws a row under the code and a row under the full name
      in the same region, the region of the code. */
  lemma SpelledOutSameRegion(r1: SheetRow, r2: SheetRow)
    requires r1.estado == "SP" && r2.estado == "S\U{00E3}o Paulo"
    ensures InRegion("SP")(r1) && InRegion("SP")(r2)
  {
    SaoPauloRegion();
  }

  /** The region filter keeps every row drawn in the selected region. */
  lemma RegionKeepsItsRows(rows: seq<SheetRow>, code: string)
    requires code != "" && forall x :: x in rows ==> InRegion(code)(x)
    ensures FilteredRows(rows, Some(code)) == rows
  {
    Seqs.FilterKeepsAll(rows, InRegion(code));
  }

  /** "SP" and "S\U{00E3}o Paulo" are both drawn in the map's S\U{00E3}o
      Paulo region. */
  lemma SaoPauloRegion()
    ensures StateNames.NormalizeStateName("SP") == "S\U{00E3}o Paulo"
    ensures StateNames.NormalizeStateName("S\U{00E3}o Paulo") == "S\U{00E3}o Paulo"
    ensures MapChart.SiglaToName("SP") == "S\U{00E3}o Paulo"
  {
    CodeKey();
    assert StateNames.StateLookup("SP") == Some("S\U{00E3}o Paulo");
    StateNames.NormalizeByKey("SP", "SP");
    StateNames.SaoPauloIsFixed();
    MapChart.AgreeSP();
  }

  lemma CodeKey()
    ensures Text.Trim(Text.Upper("SP")) == "SP"
  {
    assert Text.Upper("SP") == "SP" by {
      assert Text.UpperChar('S') == 'S' && Text.UpperChar('P') == 'P';
    }
    Text.TrimmedAlready("SP");
  }

  // ---------------------------------------------------------------------
  // Selection

  /** The map's click handler: the selected code clears the selection,
      any other code selects it. */
  function ToggleState(sel: Option<string>, uf: string): (r: Option<string>)
    ensures r.None? <==> sel == Some(uf)
    ensures r.Some? ==> r.value == uf
  {
    if sel == Some(uf) then None else Some(uf)
  }

  /** Clicking the same region twice returns to where the page started
      when it started without a selection or with that region selected;
      from any other selection it ends with nothing selected. */
  lemma ToggleTwice(sel: Option<string>, uf: string)
    ensures sel.None? || sel == Some(uf) ==> ToggleState(ToggleState(sel, uf), uf) == sel
    ensures sel.Some? && sel != Some(uf) ==> ToggleState(ToggleState(sel, uf), uf).None?
  {
  }

  /** The page state the tabs and the map act on. */
  datatype PageState = PageState(category: Category, selectedState: Option<string>)

  /** A category tab: it selects the category and clears the selection. */
  function SwitchCategory(s: PageState, c: Category): (r: PageState)
    ensures r.category == c && r.selectedState.None?
  {
    PageState(c, None)
  }

  /** A click on a map region. */
  function ClickRegion(s: PageState, regionName: string): (r: PageState)
    ensures r.category == s.category
    ensures regionName == "" ==> r == s
  {
    match MapChart.OnChartClick(true, regionName)
    case None => s
    case Some(uf) => s.(selectedState := ToggleState(s.selectedState, uf))
  }

  /** Clicking a region with nothing selected selects its code, and the
      map then highlights the entries grouped under that region. */
  lemma ClickSelectsRegion(s: PageState, regionName: string, data: seq<Entry>, i: nat)
    requires s.selectedState.None? && regionName in MapChart.NameMap
    requires i < |data| && data[i].name == regionName
    ensures ClickRegion(s, regionName).selectedState == Some(MapChart.NameToSigla(regionName))
    ensures MapChart.SeriesData(data, ClickRegion(s, regionName).selectedState)[i].highlighted
  {
    MapChart.ClickHighlightsRegion(data, regionName, i);
  }

  /** Two clicks on the same named region: unless that region's code was
      selected to begin with, the second click clears the selection; if it
      was, the page is back where it started. */
  lemma ClickAgainClears(s: PageState, regionName: string)
    requires regionName != ""
    ensures s.selectedState != Some(MapChart.NameToSigla(regionName)) ==>
      ClickRegion(ClickRegion(s, regionName), regionName).selectedState.None?
    ensures s.selectedState == Some(MapChart.NameToSigla(regionName)) ==>
      ClickRegion(ClickRegion(s, regionName), regionName) == s
  {
  }

  // ---------------------------------------------------------------------
  // Conversion percentage

  /** `Math.round`: the nearest integer, ties upwards. */
  function MathRound(x: real): (n: int)
    ensures n as real - 0.5 <= x < n as real + 0.5
  {
    (x + 0.5).Floor
  }

  /** The percentage on the quoted card. */
  function ConversionPercent(m: DashboardMetrics): (p: int)
    ensures m.volumeOrcado.total <= 0.0 ==> p == 0
    ensures m.volumeOrcado.total > 0.0 ==>
      p as real - 0.5 <= m.volumeFechado.total / m.volumeOrcado.total * 100.0 < p as real + 0.5
  {
    if m.volumeOrcado.total > 0.0 then MathRound(m.volumeFechado.total / m.volumeOrcado.total * 100.0) else 0
  }

  /** With non-negative amounts the percentage lies between 0 and 100. */
  lemma ConversionInRange(rows: seq<SheetRow>, now: Date, iso: string -> DateValue)
    requires NonNegative(rows)
    ensures 0 <= ConversionPercent(CalculateMetrics(rows, now, iso)) <= 100
  {
    var m := CalculateMetrics(rows, now, iso);
    VolumesOrdered(rows, now, iso);
    ClosedWithinQuoted(rows, now, iso);
    var closed, quoted := m.volumeFechado.total, m.volumeOrcado.total;
    if quoted > 0.0 {
      RoundedShare(closed, quoted);
    }
  }

  lemma RoundedShare(part: real, whole: real)
    requires 0.0 <= part <= whole && whole > 0.0
    ensures 0 <= MathRound(part / whole * 100.0) <= 100
  {
    assert 0.0 <= part / whole <= 1.0;
  }

  // ---------------------------------------------------------------------
  // Optimistic create

  /** A submitted array the model can decode: eleven cells, and an amount
      that reads as a number. */
  predicate Decodable(r: seq<string>) {
    |r| == 11 && Currency.ParseValor(r[6]).Some?
  }

  /** The row the create handler puts in front of the snapshot, read
      positionally from the submitted array. The amount drops every '.',
      turns the first ',' into '.', and is read as a decimal. */
  function DecodeCreatedRow(r: seq<string>): (row: SheetRow)
    requires Decodable(r)
    ensures row.id == r[0] && row.dataEmissao == r[1] && row.cliente == r[2]
    ensures row.categoria == r[3] && row.origem == r[4] && row.produto == r[5]
    ensures row.status == r[7] && row.dataFechamento == Some(r[8])
    ensures row.cidade == r[9] && row.estado == r[10]
    ensures row.valor == Currency.ParseValor(r[6]).value
    ensures row.profissional == "N/A" && row.pedidoOriginal.None?
  {
    SheetRow(r[0], None, r[2], "N/A", r[7], r[3], r[4], r[5], r[1], Some(r[8]),
      Currency.ParseValor(r[6]).value, r[9], r[10])
  }

  /** What the create dialog sends decodes into the row it describes: each
      field as typed, and the amount as the masked cents in reais. */
  lemma SubmittedRowDecodes(f: OrderForm.Form)
    requires OrderForm.ValorMasked(f)
    ensures Decodable(CreateOrderModal.SubmitRow(f))
    ensures DecodeCreatedRow(CreateOrderModal.SubmitRow(f))
         == SheetRow(f.id, None, f.cliente, "N/A", f.status, f.categoria,
              f.origem, f.produto, f.dataEmissao, Some(f.dataFechamento),
              Currency.Reais(Currency.Cents(f.valor)), f.cidade, f.estado)
  {
    SubmitRowCells(f);
    MaskedRowDecodes(f, CreateOrderModal.SubmitRow(f));
  }

  /** The array holds the form's fields, cell by cell, in column order. */
  predicate CellsOf(f: OrderForm.Form, r: seq<string>) {
    |r| == 11 && r[0] == f.id && r[1] == f.dataEmissao && r[2] == f.cliente
    && r[3] == f.categoria && r[4] == f.origem && r[5] == f.produto && r[6] == f.valor
    && r[7] == f.status && r[8] == f.dataFechamento && r[9] == f.cidade && r[10] == f.estado
  }

  /** What the dialog sends holds the form's fields, cell by cell. */
  lemma SubmitRowCells(f: OrderForm.Form)
    ensures CellsOf(f, CreateOrderModal.SubmitRow(f))
  {
  }

  /** An array carrying a form with a masked amount decodes into the row
      that form describes. */
  lemma MaskedRowDecodes(f: OrderForm.Form, r: seq<string>)
    requires OrderForm.ValorMasked(f) && CellsOf(f, r)
    ensures Decodable(r)
    ensures DecodeCreatedRow(r)
         == SheetRow(f.id, None, f.cliente, "N/A", f.status, f.categoria,
              f.origem, f.produto, f.dataEmissao, Some(f.dataFechamento),
              Currency.Reais(Currency.Cents(f.valor)), f.cidade, f.estado)
  {
    OrderForm.MaskedValorParses(f);
    DecodeWithAmount(r, f.valor, Currency.Reais(Currency.Cents(f.valor)));
  }

  /** A row whose amount parses to `v` decodes with amount `v`. */
  lemma DecodeWithAmount(r: seq<string>, cell: string, v: real)
    requires |r| == 11 && r[6] == cell && Currency.ParseValor(cell) == Some(v)
    ensures Decodable(r)
    ensures DecodeCreatedRow(r) == SheetRow(r[0], None, r[2], "N/A", r[7], r[3], r[4], r[5], r[1], Some(r[8]), v, r[9], r[10])
  {
  }

  /** The update handed to `manualUpdate`: the new row in front. */
  function Prepend(row: SheetRow): (f: SheetData -> SheetData)
    ensures forall d :: |f(d).rows| == |d.rows| + 1 && f(d).rows[0] == row && f(d).rows[1..] == d.rows
    ensures forall d :: f(d).lastUpdated == d.lastUpdated
  {
    (d: SheetData) => d.(rows := [row] + d.rows)
  }

  /** What a handler left behind: the store and whether it alerted. */
  datatype HandlerResult = HandlerResult(store: Store, alerted: bool)

  /** The shape both handlers share: the update goes to `manualUpdate`
      first, then the request is pushed, and a rejection only raises an
      alert. */
  function Optimistic<T>(s: Store, fn: SheetData -> SheetData, reply: Reply<T>): (res: HandlerResult)
    ensures res.store == Store(fn(s.data), s.isConnected, s.hasChannel)
    ensures res.alerted <==> Push(s.hasChannel, reply).Rejected?
    ensures res.alerted <==> !(s.hasChannel && reply.ReplyOk?)
  {
    var after := Step(s, ManualUpdate(fn));
    HandlerResult(after, Push(after.hasChannel, reply).Rejected?)
  }

  /** The update stays whatever the server answers: there is no rollback. */
  lemma NoRollback<T>(s: Store, fn: SheetData -> SheetData, reply1: Reply<T>, reply2: Reply<T>)
    ensures Optimistic(s, fn, reply1).store == Optimistic(s, fn, reply2).store
    ensures Optimistic(s, fn, reply1).store == Step(s, ManualUpdate(fn))
  {
  }

  /** `handleCreateOrder`. */
  function HandleCreateOrder<T>(s: Store, r: seq<string>, reply: Reply<T>): (res: HandlerResult)
    requires Decodable(r)
    ensures res.store.data == SheetData([DecodeCreatedRow(r)] + s.data.rows, s.data.lastUpdated)
    ensures res.store.isConnected == s.isConnected && res.store.hasChannel == s.hasChannel
    ensures res.alerted <==> !(s.hasChannel && reply.ReplyOk?)
  {
    Optimistic(s, Prepend(DecodeCreatedRow(r)), reply)
  }

  /** The create handler catches its own failures, so the dialog's submit
      always succeeds: it closes and resets the form even when the server
      rejected the order, and only the page alerts. */
  lemma CreateDialogAlwaysCloses<T>(m: CreateOrderModal.Modal, today: string, s: Store, reply: Reply<T>)
    requires OrderForm.ValorMasked(m.form)
    ensures var sent := CreateOrderModal.SubmitRow(m.form);
      var dialog := CreateOrderModal.Submit(m, today, true);
      dialog.closed && !dialog.alerted && dialog.modal.form == CreateOrderModal.DefaultForm(today)
      && Decodable(sent)
      && (HandleCreateOrder(s, sent, reply).alerted <==> !(s.hasChannel && reply.ReplyOk?))
  {
    SubmittedRowDecodes(m.form);
  }

  // ---------------------------------------------------------------------
  // Optimistic status update

  /** The rows with the status of every row carrying `id` replaced. */
  function UpdateStatus(rows: seq<SheetRow>, id: string, status: string): (r: seq<SheetRow>)
    ensures |r| == |rows|
    ensures forall i :: 0 <= i < |rows| ==> r[i].(status := rows[i].status) == rows[i]
    ensures forall i :: 0 <= i < |rows| ==> r[i].status == (if rows[i].id == id then status else rows[i].status)
  {
    seq(|rows|, i requires 0 <= i < |rows| =>
      if rows[i].id == id then rows[i].(status := status) else rows[i])
  }

  /** An id no row carries changes nothing. */
  lemma UpdateAbsentId(rows: seq<SheetRow>, id: string, status: string)
    requires forall i :: 0 <= i < |rows| ==> rows[i].id != id
    ensures UpdateStatus(rows, id, status) == rows
  {
  }

  /** The later of two updates to the same id wins; repeating one changes
      nothing more. */
  lemma UpdateLastWins(rows: seq<SheetRow>, id: string, a: string, b: string)
    ensures UpdateStatus(UpdateStatus(rows, id, a), id, b) == UpdateStatus(rows, id, b)
    ensures UpdateStatus(UpdateStatus(rows, id, a), id, a) == UpdateStatus(rows, id, a)
  {
  }

  /** Updates to different ids commute. */
  lemma UpdatesCommute(rows: seq<SheetRow>, id1: string, s1: string, id2: string, s2: string)
    requires id1 != id2
    ensures UpdateStatus(UpdateStatus(rows, id1, s1), id2, s2)
         == UpdateStatus(UpdateStatus(rows, id2, s2), id1, s1)
  {
  }

  /** `handleUpdateStatus`: the optimistic rewrite, then the push, whose
      failure only raises an alert. */
  function HandleUpdateStatus<T>(s: Store, id: string, status: string, reply: Reply<T>): (res: HandlerResult)
    ensures res.store.data == SheetData(UpdateStatus(s.data.rows, id, status), s.data.lastUpdated)
    ensures res.store.isConnected == s.isConnected && res.store.hasChannel == s.hasChannel
    ensures res.alerted <==> !(s.hasChannel && reply.ReplyOk?)
  {
    Optimistic(s, (d: SheetData) => d.(rows := UpdateStatus(d.rows, id, status)), reply)
  }


}
