/** The record shapes the dashboard works on: one order row per product
    line of the spreadsheet, the snapshot the server pushes, and the
    figures computed from it. */
module Types {
  import opened Wrappers

  /** One order line. `valor` is the amount in reais. */
  datatype SheetRow = SheetRow(
    id: string,
    pedidoOriginal: Option<string>,
    cliente: string,
    profissional: string,
    status: string,
    categoria: string,
    origem: string,
    produto: string,
    dataEmissao: string,
    dataFechamento: Option<string>,
    valor: real,
    cidade: string,
    estado: string)

  /** The whole snapshot; every update replaces it wholesale. */
  datatype SheetData = SheetData(rows: seq<SheetRow>, lastUpdated: Option<string>)

  const EmptyData := SheetData([], None)

  /** A volume figure: everything, what fell on today, what fell in this month. */
  datatype Volume = Volume(total: real, today: real, month: real)

  /** One bar of a ranking chart. */
  datatype Entry = Entry(name: string, value: real)

  datatype DashboardMetrics = DashboardMetrics(
    volumeFechado: Volume,
    volumeOrcado: Volume,
    topStatesFechado: seq<Entry>,
    topOriginsFechado: seq<Entry>,
    topProfessionalsFechado: seq<Entry>,
    topStatesOrcado: seq<Entry>,
    topOriginsOrcado: seq<Entry>,
    topProfessionalsOrcado: seq<Entry>)

  /** Every amount is non-negative, as order values are. */
  predicate NonNegative(rows: seq<SheetRow>) {
    forall i :: 0 <= i < |rows| ==> rows[i].valor >= 0.0
  }
}
