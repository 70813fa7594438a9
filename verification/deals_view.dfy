/** The deals table: the search box, the status badge colour, the inline
    status editor and the shortened product cell. */
module DealsView {
  import opened Wrappers
  import opened Types
  import opened Text
  import Seqs
  import Aggregates
  import App

  // ---------------------------------------------------------------------
  // Search

  /** A row matches when its client, id or category contains the term,
      both sides lower-cased. */
  predicate Matches(term: string, r: SheetRow) {
    Contains(Lower(r.cliente), Lower(term))
    || Contains(Lower(r.id), Lower(term))
    || Contains(Lower(r.categoria), Lower(term))
  }

  /** `filteredRows`. */
  function Search(rows: seq<SheetRow>, term: string): (r: seq<SheetRow>)
    ensures |r| <= |rows|
    ensures forall x :: x in r <==> x in rows && Matches(term, x)
  {
    Seqs.Filter(rows, (x: SheetRow) => Matches(term, x))
  }

  /** An empty search keeps every row, in order. */
  lemma EmptySearchKeepsAll(rows: seq<SheetRow>)
    ensures Search(rows, "") == rows
  {
    forall x | x in rows ensures Matches("", x) {
      ContainsEmpty(Lower(x.cliente));
    }
    Seqs.FilterKeepsAll(rows, (x: SheetRow) => Matches("", x));
  }

  /** A term that occurs in a field's text still occurs there once both
      are lower-cased, and so does any piece of it. */
  lemma NarrowerTermMatches(shorter: string, longer: string, field: string)
    requires Contains(longer, shorter)
    requires Contains(Lower(field), Lower(longer))
    ensures Contains(Lower(field), Lower(shorter))
  {
    LowerKeepsContains(longer, shorter);
    ContainsTransitive(Lower(field), Lower(longer), Lower(shorter));
  }

  /** Typing more never brings rows back: the rows a longer term keeps
      are the rows the shorter term kept, filtered again. */
  lemma LongerTermNarrows(rows: seq<SheetRow>, shorter: string, longer: string)
    requires Contains(longer, shorter)
    ensures Search(rows, longer) == Seqs.Filter(Search(rows, shorter), (x: SheetRow) => Matches(longer, x))
    ensures |Search(rows, longer)| <= |Search(rows, shorter)|
  {
    forall x | x in rows && Matches(longer, x) ensures Matches(shorter, x) {
      if Contains(Lower(x.cliente), Lower(longer)) {
        NarrowerTermMatches(shorter, longer, x.cliente);
      } else if Contains(Lower(x.id), Lower(longer)) {
        NarrowerTermMatches(shorter, longer, x.id);
      } else {
        NarrowerTermMatches(shorter, longer, x.categoria);
      }
    }
    Seqs.FilterNarrows(rows, (x: SheetRow) => Matches(shorter, x), (x: SheetRow) => Matches(longer, x));
  }

  /** The footer counts the rows the search keeps. */
  function FooterCount(rows: seq<SheetRow>, term: string): (n: nat)
    ensures n <= |rows|
    ensures term == "" ==> n == |rows|
  {
    EmptySearchKeepsAll(rows);
    |Search(rows, term)|
  }

  // ---------------------------------------------------------------------
  // Status badge

  datatype BadgeColor = Green | Red | Blue

  /** `s?.toUpperCase() === "PERDIDO"`. */
  predicate IsPerdido(s: string) {
    Upper(s) == "PERDIDO"
  }

  /** `getStatusColor`. */
  function StatusColor(status: string): (c: BadgeColor)
    ensures c == Green <==> Aggregates.IsGanho(status)
    ensures c == Red <==> IsPerdido(status)
    ensures c == Blue <==> !Aggregates.IsGanho(status) && !IsPerdido(status)
  {
    if Aggregates.IsGanho(status) then Green
    else if IsPerdido(status) then Red
    else Blue
  }

  /** A red badge marks a row that neither volume counts. */
  lemma BadgeAgreesWithMetrics(status: string)
    ensures StatusColor(status) == Red ==> !Aggregates.IsGanho(status) && !Aggregates.IsEmAndamento(status)
  {
    if IsPerdido(status) {
      assert Upper(status) == "PERDIDO";
      assert "PERDIDO" != "GANHO" && "PERDIDO" != "EM ANDAMENTO";
    }
  }

  /** The three statuses the editor offers get the three colours. */
  lemma OptionColors()
    ensures StatusColor("Ganho") == Green
    ensures StatusColor("Perdido") == Red
    ensures StatusColor("Em andamento") == Blue
  {
    assert Upper("Ganho") == "GANHO";
    assert Upper("Perdido") == "PERDIDO";
    assert Upper("Em andamento") == "EM ANDAMENTO";
  }

  // ---------------------------------------------------------------------
  // Inline status editor

  /** `editingId` and `tempStatus`. */
  datatype Editor = Editor(editingId: Option<string>, tempStatus: string)

  const Idle := Editor(None, "")

  /** The pen on a row: edit that row, starting from its status. */
  function EditClick(e: Editor, row: SheetRow): (r: Editor)
    ensures r.editingId == Some(row.id) && r.tempStatus == row.status
  {
    Editor(Some(row.id), row.status)
  }

  /** The cross: back to idle. */
  function CancelEdit(e: Editor): (r: Editor)
    ensures r.editingId.None? && r.tempStatus == ""
  {
    Idle
  }

  /** A choice in the status list. */
  function SelectStatus(e: Editor, status: string): (r: Editor)
    ensures r.editingId == e.editingId && r.tempStatus == status
  {
    e.(tempStatus := status)
  }

  /** Whether the editor is open on a row: every row carrying the id. */
  predicate EditingRow(e: Editor, row: SheetRow) {
    e.editingId == Some(row.id)
  }

  /** What the tick did: the call made to `onUpdateStatus`, and the editor
      after the call returned. The page's handler never rejects, so the
      editor is always reset. */
  datatype SaveResult = SaveResult(call: (string, string), editor: Editor)

  /** The tick on the row with `id`. */
  function SaveEdit(e: Editor, id: string): (r: SaveResult)
    ensures r.call == (id, e.tempStatus)
    ensures r.editor == Idle
  {
    SaveResult((id, e.tempStatus), Idle)
  }

  /** Opening the editor on a row, choosing a status and saving sets that
      status on every row carrying the id, and only the status. */
  lemma EditThenSaveUpdates(e: Editor, rows: seq<SheetRow>, k: nat, status: string)
    requires k < |rows|
    ensures var call := SaveEdit(SelectStatus(EditClick(e, rows[k]), status), rows[k].id).call;
      var updated := App.UpdateStatus(rows, call.0, call.1);
      updated[k] == rows[k].(status := status)
      && forall i :: 0 <= i < |rows| && rows[i].id != rows[k].id ==> updated[i] == rows[i]
  {
  }

  /** Opening the editor and cancelling changes nothing but the editor. */
  lemma EditThenCancel(e: Editor, row: SheetRow)
    ensures CancelEdit(EditClick(e, row)) == Idle
    ensures EditingRow(EditClick(e, row), row)
  {
  }

  // ---------------------------------------------------------------------
  // Product cell

  /** A product longer than 30 characters is cut to its first 30 and
      followed by "..."; a shorter one is shown whole. */
  function Truncate(p: string): (r: string)
    ensures |p| <= 30 ==> r == p
    ensures |p| > 30 ==> |r| == 33 && r[..30] == p[..30] && r[30..] == "..."
  {
    if |p| > 30 then p[..30] + "..." else p
  }

  /** The cell never holds more than 33 characters, and shortening it
      again changes nothing. */
  lemma TruncateBounds(p: string)
    ensures |Truncate(p)| <= 33
    ensures Truncate(Truncate(p)) == Truncate(p)
  {
    if |p| > 30 {
      var r := Truncate(p);
      assert r[..30] == p[..30];
      assert Truncate(r) == r[..30] + "...";
      assert r == r[..30] + r[30..];
    }
  }
}
