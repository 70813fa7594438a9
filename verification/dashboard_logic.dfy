/** `calculateMetrics`: the two volume cards (closed and quoted) and the
    six ranking charts, computed from a snapshot of rows. The clock and
    the ISO date reader are parameters: `now` is the day the metrics are
    computed on. */
module DashboardLogic {
  import opened Wrappers
  import opened Types
  import opened Aggregates
  import opened Dates
  import opened Grouping
  import Seqs

  /** A won order with a closing date: it counts towards the closed volume. */
  predicate IsClosed(r: SheetRow) {
    IsGanho(r.status) && r.dataFechamento.Some? && r.dataFechamento.value != ""
  }

  /** An order still being negotiated or already won: it counts towards
      the quoted volume. */
  predicate IsQuoted(r: SheetRow) {
    IsEmAndamento(r.status) || IsGanho(r.status)
  }

  /** The rows the `Fechado` charts are built from: won or in progress. */
  predicate IsActive(r: SheetRow) {
    IsGanho(r.status) || IsEmAndamento(r.status)
  }

  /** The quoted test and the active test accept the same rows. */
  lemma QuotedIsActive(r: SheetRow)
    ensures IsQuoted(r) == IsActive(r)
  {
  }

  function ClosedRows(rows: seq<SheetRow>): seq<SheetRow> {
    Seqs.Filter(rows, IsClosed)
  }

  function QuotedRows(rows: seq<SheetRow>): seq<SheetRow> {
    Seqs.Filter(rows, IsQuoted)
  }

  function ActiveRows(rows: seq<SheetRow>): seq<SheetRow> {
    Seqs.Filter(rows, IsActive)
  }

  /** The day a row was closed, as `parseBrDate(r.data_fechamento)`. */
  function ClosingDate(r: SheetRow, iso: string -> DateValue): DateValue {
    ParseBrDate(r.dataFechamento, iso)
  }

  /** The day a row was issued, as `parseBrDate(r.data_emissao)`. */
  function IssueDate(r: SheetRow, iso: string -> DateValue): DateValue {
    ParseBrDate(Some(r.dataEmissao), iso)
  }

  function ClosedToday(now: Date, iso: string -> DateValue): SheetRow -> bool {
    (r: SheetRow) => SameDay(ClosingDate(r, iso), now)
  }

  function ClosedThisMonth(now: Date, iso: string -> DateValue): SheetRow -> bool {
    (r: SheetRow) => SameMonth(ClosingDate(r, iso), now)
  }

  function IssuedToday(now: Date, iso: string -> DateValue): SheetRow -> bool {
    (r: SheetRow) => SameDay(IssueDate(r, iso), now)
  }

  function IssuedThisMonth(now: Date, iso: string -> DateValue): SheetRow -> bool {
    (r: SheetRow) => SameMonth(IssueDate(r, iso), now)
  }

  /** `calculateMetrics`. The charts labelled `Fechado` are built from
      the same rows as the `Orcado` ones, so each pair is identical. */
  function CalculateMetrics(rows: seq<SheetRow>, now: Date, iso: string -> DateValue): (m: DashboardMetrics)
    ensures m.topStatesFechado == m.topStatesOrcado
    ensures m.topOriginsFechado == m.topOriginsOrcado
    ensures m.topProfessionalsFechado == m.topProfessionalsOrcado
  {
    Seqs.FilterCongruent(rows, IsActive, IsQuoted);
    var fechado := ClosedRows(rows);
    var orcado := QuotedRows(rows);
    var active := ActiveRows(rows);
    DashboardMetrics(
      Volume(Sum(fechado), TrySum(fechado, ClosedToday(now, iso)), TrySum(fechado, ClosedThisMonth(now, iso))),
      Volume(Sum(orcado), TrySum(orcado, IssuedToday(now, iso)), TrySum(orcado, IssuedThisMonth(now, iso))),
      GroupBy(active, ByEstado),
      GroupBy(active, ByOrigem),
      GroupBy(active, ByProfissional),
      GroupBy(orcado, ByEstado),
      GroupBy(orcado, ByOrigem),
      GroupBy(orcado, ByProfissional))
  }

  /** The figure of a card: all rows `p` keeps, and among them the rows
      the date test `q` accepts, add up like the rows both accept. */
  lemma FilteredFigure(rows: seq<SheetRow>, p: SheetRow -> bool, q: SheetRow -> bool, pq: SheetRow -> bool)
    requires forall r :: pq(r) == (p(r) && q(r))
    ensures TrySum(Seqs.Filter(rows, p), q) == TrySum(rows, pq)
  {
    TrySumOfFilter(rows, p, q);
    TrySumCongruent(rows, (r: SheetRow) => p(r) && q(r), pq);
  }

  /** The closed volume adds up exactly the won rows with a closing date;
      its today and month figures add those closed today and this month. */
  lemma ClosedVolume(rows: seq<SheetRow>, now: Date, iso: string -> DateValue)
    ensures CalculateMetrics(rows, now, iso).volumeFechado.total
         == TrySum(rows, (r: SheetRow) => IsClosed(r))
    ensures CalculateMetrics(rows, now, iso).volumeFechado.today
         == TrySum(rows, (r: SheetRow) => IsClosed(r) && SameDay(ClosingDate(r, iso), now))
    ensures CalculateMetrics(rows, now, iso).volumeFechado.month
         == TrySum(rows, (r: SheetRow) => IsClosed(r) && SameMonth(ClosingDate(r, iso), now))
  {
    var f := ClosedRows(rows);
    var v := CalculateMetrics(rows, now, iso).volumeFechado;
    assert v == Volume(Sum(f), TrySum(f, ClosedToday(now, iso)), TrySum(f, ClosedThisMonth(now, iso)));
    TrySumIsSumOfFilter(rows, IsClosed);
    TrySumCongruent(rows, IsClosed, (r: SheetRow) => IsClosed(r));
    FilteredFigure(rows, IsClosed, ClosedToday(now, iso),
      (r: SheetRow) => IsClosed(r) && SameDay(ClosingDate(r, iso), now));
    FilteredFigure(rows, IsClosed, ClosedThisMonth(now, iso),
      (r: SheetRow) => IsClosed(r) && SameMonth(ClosingDate(r, iso), now));
  }

  /** The quoted volume adds up exactly the won and in-progress rows; its
      today and month figures go by the issue date. */
  lemma QuotedVolume(rows: seq<SheetRow>, now: Date, iso: string -> DateValue)
    ensures CalculateMetrics(rows, now, iso).volumeOrcado.total
         == TrySum(rows, (r: SheetRow) => IsQuoted(r))
    ensures CalculateMetrics(rows, now, iso).volumeOrcado.today
         == TrySum(rows, (r: SheetRow) => IsQuoted(r) && SameDay(IssueDate(r, iso), now))
    ensures CalculateMetrics(rows, now, iso).volumeOrcado.month
         == TrySum(rows, (r: SheetRow) => IsQuoted(r) && SameMonth(IssueDate(r, iso), now))
  {
    var f := QuotedRows(rows);
    var v := CalculateMetrics(rows, now, iso).volumeOrcado;
    assert v == Volume(Sum(f), TrySum(f, IssuedToday(now, iso)), TrySum(f, IssuedThisMonth(now, iso)));
    TrySumIsSumOfFilter(rows, IsQuoted);
    TrySumCongruent(rows, IsQuoted, (r: SheetRow) => IsQuoted(r));
    FilteredFigure(rows, IsQuoted, IssuedToday(now, iso),
      (r: SheetRow) => IsQuoted(r) && SameDay(IssueDate(r, iso), now));
    FilteredFigure(rows, IsQuoted, IssuedThisMonth(now, iso),
      (r: SheetRow) => IsQuoted(r) && SameMonth(IssueDate(r, iso), now));
  }

  /** With non-negative amounts, each card reads today <= month <= total. */
  lemma VolumesOrdered(rows: seq<SheetRow>, now: Date, iso: string -> DateValue)
    requires NonNegative(rows)
    ensures var m := CalculateMetrics(rows, now, iso);
      0.0 <= m.volumeFechado.today <= m.volumeFechado.month <= m.volumeFechado.total
      && 0.0 <= m.volumeOrcado.today <= m.volumeOrcado.month <= m.volumeOrcado.total
  {
    var fechado := ClosedRows(rows);
    var orcado := QuotedRows(rows);
    NonNegativeFilter(rows, IsClosed);
    NonNegativeFilter(rows, IsQuoted);
    forall r ensures ClosedToday(now, iso)(r) ==> ClosedThisMonth(now, iso)(r) {
      SameDayIsSameMonth(ClosingDate(r, iso), now);
    }
    forall r ensures IssuedToday(now, iso)(r) ==> IssuedThisMonth(now, iso)(r) {
      SameDayIsSameMonth(IssueDate(r, iso), now);
    }
    TrySumAtMostSum(fechado, ClosedToday(now, iso));
    TrySumMonotone(fechado, ClosedToday(now, iso), ClosedThisMonth(now, iso));
    TrySumAtMostSum(fechado, ClosedThisMonth(now, iso));
    TrySumAtMostSum(orcado, IssuedToday(now, iso));
    TrySumMonotone(orcado, IssuedToday(now, iso), IssuedThisMonth(now, iso));
    TrySumAtMostSum(orcado, IssuedThisMonth(now, iso));
  }

  /** Every closed row is also a quoted row, so with non-negative amounts
      the closed volume never exceeds the quoted volume. */
  lemma ClosedWithinQuoted(rows: seq<SheetRow>, now: Date, iso: string -> DateValue)
    requires NonNegative(rows)
    ensures CalculateMetrics(rows, now, iso).volumeFechado.total
         <= CalculateMetrics(rows, now, iso).volumeOrcado.total
  {
    ClosedVolume(rows, now, iso);
    QuotedVolume(rows, now, iso);
    TrySumMonotone(rows, (r: SheetRow) => IsClosed(r), (r: SheetRow) => IsQuoted(r));
  }

  /** A row whose status is neither won nor in progress, inserted anywhere,
      changes none of the figures. */
  lemma OtherStatusIgnored(a: seq<SheetRow>, r: SheetRow, b: seq<SheetRow>, now: Date, iso: string -> DateValue)
    requires !IsGanho(r.status) && !IsEmAndamento(r.status)
    ensures CalculateMetrics(a + [r] + b, now, iso) == CalculateMetrics(a + b, now, iso)
  {
    FilterSkips(a, r, b, IsClosed);
    FilterSkips(a, r, b, IsQuoted);
    FilterSkips(a, r, b, IsActive);
  }

  lemma FilterSkips(a: seq<SheetRow>, r: SheetRow, b: seq<SheetRow>, p: SheetRow -> bool)
    requires !p(r)
    ensures Seqs.Filter(a + [r] + b, p) == Seqs.Filter(a + b, p)
  {
    Seqs.FilterAppend(a + [r], b, p);
    Seqs.FilterAppend(a, [r], p);
    Seqs.FilterAppend(a, b, p);
    Seqs.FilterSingleton(r, p);
  }

  /** Status matching ignores case but not surrounding blanks. */
  lemma StatusMatching()
    ensures IsGanho("ganho") && IsGanho("GANHO") && IsEmAndamento("Em Andamento")
    ensures !IsGanho(" Ganho")
  {
    assert Text.Upper("ganho") == "GANHO";
    assert Text.Upper("Em Andamento") == "EM ANDAMENTO";
    assert Text.Upper(" Ganho")[0] == ' ';
  }
}
