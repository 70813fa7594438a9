/** The "edit order" dialog: loading a row into the form, and the field
    map it submits for the row it was opened on. */
module EditOrderModal {
  import opened Wrappers
  import opened Types
  import opened OrderForm

  /** The state before any row has been loaded. */
  const BlankForm := Form("", "", "", "", "", "", "", "", "", "", "")

  /** Loading `initialData`: each field is copied, a missing closing date
      becomes the empty string, and the amount is written out by `fmt`,
      which stands for the pt-BR number format with two decimals. */
  function LoadForm(r: SheetRow, fmt: real -> string): (f: Form)
    ensures f.id == r.id && f.dataEmissao == r.dataEmissao && f.cliente == r.cliente
    ensures f.categoria == r.categoria && f.origem == r.origem && f.produto == r.produto
    ensures f.status == r.status && f.cidade == r.cidade && f.estado == r.estado
    ensures f.valor == fmt(r.valor)
    ensures r.dataFechamento.None? ==> f.dataFechamento == ""
    ensures r.dataFechamento.Some? ==> f.dataFechamento == r.dataFechamento.value
  {
    Form(r.id, r.dataEmissao, r.cliente, r.categoria, r.origem, r.produto,
         fmt(r.valor), r.status, r.dataFechamento.GetOr(""), r.cidade, r.estado)
  }

  /** The effect on `initialData`: a row reloads the form, none leaves it. */
  function OnInitialData(f: Form, initial: Option<SheetRow>, fmt: real -> string): (r: Form)
    ensures initial.None? ==> r == f
    ensures initial.Some? ==> r == LoadForm(initial.value, fmt)
  {
    match initial
    case None => f
    case Some(row) => LoadForm(row, fmt)
  }

  /** The dialog draws only when open and given a row. */
  predicate Renders(isOpen: bool, initial: Option<SheetRow>) {
    isOpen && initial.Some?
  }

  datatype Modal = Modal(form: Form, isLoading: bool)

  /** What one submit did: the state after it, the id it addressed, the
      field map it sent, whether it closed the dialog and whether it
      showed the error alert. */
  datatype SubmitResult = SubmitResult(modal: Modal, target: string, sent: Form, closed: bool, alerted: bool)

  /** `handleSubmit`, reachable only while the dialog is drawn, so with a
      row; `succeeded` is whether the `onSubmit` promise resolved. The
      form itself is never reset. */
  function Submit(m: Modal, initial: Option<SheetRow>, succeeded: bool): (r: SubmitResult)
    requires initial.Some?
    ensures r.target == initial.value.id
    ensures r.sent == m.form
    ensures r.modal == Modal(m.form, false)
    ensures r.closed <==> succeeded
    ensures r.alerted <==> !succeeded
  {
    SubmitResult(Modal(m.form, false), initial.value.id, m.form, succeeded, !succeeded)
  }

  /** Input events in order; the id input is disabled, so none targets it. */
  function ApplyEdits(f: Form, edits: seq<(Field, string)>): Form
    decreases |edits|
  {
    if |edits| == 0 then f
    else ApplyEdits(HandleChange(f, edits[0].0, edits[0].1), edits[1..])
  }

  /** Edits keep every field they do not touch. */
  lemma {:induction false} EditsKeepUntouched(f: Form, edits: seq<(Field, string)>, g: Field)
    requires forall i :: 0 <= i < |edits| ==> edits[i].0 != g
    ensures Read(ApplyEdits(f, edits), g) == Read(f, g)
    decreases |edits|
  {
    if |edits| > 0 {
      EditsKeepUntouched(HandleChange(f, edits[0].0, edits[0].1), edits[1..], g);
    }
  }

  /** After loading a row and editing the form, the submit addresses the
      loaded row, and the map sent carries that same id. */
  lemma SubmitAddressesLoadedRow(r: SheetRow, fmt: real -> string, edits: seq<(Field, string)>, succeeded: bool)
    requires forall i :: 0 <= i < |edits| ==> edits[i].0 != Id
    ensures var res := Submit(Modal(ApplyEdits(LoadForm(r, fmt), edits), true), Some(r), succeeded);
      res.target == r.id && res.sent.id == r.id
  {
    EditsKeepUntouched(LoadForm(r, fmt), edits, Id);
  }
}
