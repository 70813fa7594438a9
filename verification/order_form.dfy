/** The eleven-field order form shared by the create and edit dialogs, and
    their common `handleChange`: the amount field goes through the money
    mask, every other field stores what was typed. */
module OrderForm {
  import opened Wrappers
  import Currency

  datatype Form = Form(
    id: string,
    dataEmissao: string,
    cliente: string,
    categoria: string,
    origem: string,
    produto: string,
    valor: string,
    status: string,
    dataFechamento: string,
    cidade: string,
    estado: string)

  /** The `name` attribute of each input. */
  datatype Field =
    | Id | DataEmissao | Cliente | Categoria | Origem | Produto
    | Valor | Status | DataFechamento | Cidade | Estado

  /** `formData[name]`. */
  function Read(f: Form, field: Field): string {
    match field
    case Id => f.id
    case DataEmissao => f.dataEmissao
    case Cliente => f.cliente
    case Categoria => f.categoria
    case Origem => f.origem
    case Produto => f.produto
    case Valor => f.valor
    case Status => f.status
    case DataFechamento => f.dataFechamento
    case Cidade => f.cidade
    case Estado => f.estado
  }

  /** `{ ...prev, [name]: value }`. */
  function Write(f: Form, field: Field, value: string): (r: Form)
    ensures Read(r, field) == value
    ensures forall g :: g != field ==> Read(r, g) == Read(f, g)
  {
    match field
    case Id => f.(id := value)
    case DataEmissao => f.(dataEmissao := value)
    case Cliente => f.(cliente := value)
    case Categoria => f.(categoria := value)
    case Origem => f.(origem := value)
    case Produto => f.(produto := value)
    case Valor => f.(valor := value)
    case Status => f.(status := value)
    case DataFechamento => f.(dataFechamento := value)
    case Cidade => f.(cidade := value)
    case Estado => f.(estado := value)
  }

  /** `handleChange`: an input event on `field` carrying `value`. */
  function HandleChange(f: Form, field: Field, value: string): (r: Form)
    ensures field != Valor ==> Read(r, field) == value
    ensures field == Valor ==> Read(r, field) == Currency.Mask(value)
    ensures forall g :: g != field ==> Read(r, g) == Read(f, g)
  {
    if field == Valor then Write(f, field, Currency.Mask(value)) else Write(f, field, value)
  }

  /** The amount field holds a string the mask leaves alone, as every
      masked string is. */
  predicate ValorMasked(f: Form) {
    Currency.Mask(f.valor) == f.valor
  }

  /** Typing into the amount field leaves it masked, and feeding the shown
      amount back through the input changes nothing. */
  lemma {:induction false} ChangeValorStable(f: Form, typed: string)
    ensures ValorMasked(HandleChange(f, Valor, typed))
    ensures HandleChange(HandleChange(f, Valor, typed), Valor, HandleChange(f, Valor, typed).valor)
         == HandleChange(f, Valor, typed)
  {
    Currency.MaskIdempotent(typed);
  }

  /** Every edit keeps a masked amount masked. */
  lemma ChangeKeepsMasked(f: Form, field: Field, value: string)
    requires ValorMasked(f)
    ensures ValorMasked(HandleChange(f, field, value))
  {
    if field == Valor {
      ChangeValorStable(f, value);
    }
  }

  /** A masked amount parses back to its cents over one hundred. */
  lemma MaskedValorParses(f: Form)
    requires ValorMasked(f)
    ensures Currency.ParseValor(f.valor) == Some(Currency.Reais(Currency.Cents(f.valor)))
  {
    Currency.ParseValorOfMask(f.valor);
  }
}
