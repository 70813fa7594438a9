/** The "new order" dialog: the form's defaults, the positional row it
    submits, and what a submit leaves behind. */
module CreateOrderModal {
  import opened OrderForm

  /** The form as first shown and as reset after a successful submit.
      `today` stands for the current date written the Brazilian way. */
  function DefaultForm(today: string): (f: Form)
    ensures f.categoria == "Projetos" && f.status == "Em andamento" && f.dataEmissao == today
    ensures forall g :: g != DataEmissao && g != Categoria && g != Status ==> Read(f, g) == ""
  {
    Form("", today, "", "Projetos", "", "", "", "Em andamento", "", "", "")
  }

  /** The sheet's column order, A to K. */
  const RowOrder: seq<Field> :=
    [Id, DataEmissao, Cliente, Categoria, Origem, Produto, Valor, Status, DataFechamento, Cidade, Estado]

  /** The column a field is written to. */
  function Column(g: Field): (i: nat)
    ensures i < |RowOrder| && RowOrder[i] == g
  {
    match g
    case Id => 0
    case DataEmissao => 1
    case Cliente => 2
    case Categoria => 3
    case Origem => 4
    case Produto => 5
    case Valor => 6
    case Status => 7
    case DataFechamento => 8
    case Cidade => 9
    case Estado => 10
  }

  /** Every field has exactly one column: the order is a permutation of
      the eleven fields. */
  lemma RowOrderIsPermutation()
    ensures forall g: Field :: g in RowOrder
    ensures forall i, j :: 0 <= i < j < |RowOrder| ==> RowOrder[i] != RowOrder[j]
  {
    forall g: Field ensures g in RowOrder {
      assert RowOrder[Column(g)] == g;
    }
    forall i, j | 0 <= i < j < |RowOrder| ensures RowOrder[i] != RowOrder[j] {
      assert Column(RowOrder[i]) == i && Column(RowOrder[j]) == j;
    }
  }

  /** The `row` array handed to `onSubmit`: each column holds the field
      of that column, verbatim. */
  function SubmitRow(f: Form): (row: seq<string>)
    ensures |row| == |RowOrder|
    ensures forall i :: 0 <= i < |RowOrder| ==> row[i] == Read(f, RowOrder[i])
  {
    [f.id, f.dataEmissao, f.cliente, f.categoria, f.origem, f.produto,
     f.valor, f.status, f.dataFechamento, f.cidade, f.estado]
  }

  datatype Modal = Modal(form: Form, isLoading: bool)

  /** What one submit did: the state after it, the row it sent, whether
      it closed the dialog and whether it showed the error alert. */
  datatype SubmitResult = SubmitResult(modal: Modal, sent: seq<string>, closed: bool, alerted: bool)

  /** `handleSubmit`; `succeeded` is whether the `onSubmit` promise
      resolved. */
  function Submit(m: Modal, today: string, succeeded: bool): (r: SubmitResult)
    ensures r.sent == SubmitRow(m.form)
    ensures !r.modal.isLoading
    ensures r.closed <==> succeeded
    ensures r.alerted <==> !succeeded
    ensures succeeded ==> r.modal.form == DefaultForm(today)
    ensures !succeeded ==> r.modal.form == m.form
  {
    var sent := SubmitRow(m.form);
    if succeeded then SubmitResult(Modal(DefaultForm(today), false), sent, true, false)
    else SubmitResult(Modal(m.form, false), sent, false, true)
  }
}
