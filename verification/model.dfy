/** The data the engine works on: a table of customer rows, the campaign
    parameters, the ordered bank configurations, the per-product output
    columns a configuration writes, and the generic tables the finaliser
    reads and writes. */
module Model {
  import opened Wrappers
  import opened SafetyMargin

  /** One cell of a table: pandas' NaN is `Null`. */
  datatype Value = Null | Str(s: string) | Num(x: real) | Int(n: int) | Flag(b: bool)

  /** The cell of column `col`; a column the row does not have reads as null. */
  function Get(cells: map<string, Value>, col: string): Value {
    if col in cells then cells[col] else Null
  }

  datatype Date = Date(year: int, month: int, day: int)

  /** Calendar order on dates. */
  predicate OnOrAfter(d: Date, cutoff: Date) {
    d.year > cutoff.year
    || (d.year == cutoff.year && d.month > cutoff.month)
    || (d.year == cutoff.year && d.month == cutoff.month && d.day >= cutoff.day)
  }

  /** `Data_Nascimento` after day-first parsing: a null cell, text that does
      not parse (NaT), or a date. */
  datatype Birth = Missing | Unparseable | Born(date: Date)

  /** The numeric margin columns (`MG_*`) the calculators read. */
  datatype Margins = Margins(
    emprestimoDisp: real,   // MG_Emprestimo_Disponivel
    compulsoriaDisp: real,  // MG_Compulsoria_Disponivel
    saqueTotal: real,       // MG_Beneficio_Saque_Total
    saqueDisp: real,        // MG_Beneficio_Saque_Disponivel
    compraTotal: real,      // MG_Beneficio_Compra_Total
    compraDisp: real,       // MG_Beneficio_Compra_Disponivel
    cartaoTotal: real,      // MG_Cartao_Total
    cartaoDisp: real)       // MG_Cartao_Disponivel

  /** One customer row: its text columns by name, its parsed birth date and
      its margins. */
  datatype Customer = Customer(cells: map<string, Value>, birth: Birth, mg: Margins)

  /** The customer table: the names of its text columns and its rows. */
  datatype Base = Base(columns: set<string>, rows: seq<Customer>)

  const CPF := "CPF"
  const NOME := "Nome_Cliente"
  const LOTACAO := "Lotacao"
  const VINCULO := "Vinculo_Servidor"
  const MATRICULA := "Matricula"
  const NASCIMENTO := "Data_Nascimento"

  /** `modo_condicional`: "Usar palavras-chave" or anything else. */
  datatype CondMode = Keywords | SingleValue

  /** `coluna_condicional`, `modo_condicional`, `valor_condicional`. */
  datatype Condition = Condition(column: string, mode: CondMode, value: Option<string>)

  /** `cartao_escolhido` in the combined campaign: "Benefício",
      "Consignado", or anything else. */
  datatype Product = BenefitProduct | CardProduct | NoProduct

  /** One entry of the ordered bank-configuration list. */
  datatype BankConfig = BankConfig(
    cond: Condition,
    banco: string,           // banco
    coef: real,              // coeficiente
    coef2: Option<real>,     // coeficiente2 (goval)
    coefParcela: real,       // coeficiente_parcela
    comissao: real,          // comissao, in percent
    parcelas: int,           // parcelas
    safety: Safety,
    product: Product,        // cartao_escolhido
    usarMargemCompra: bool)  // usar_margem_compra (govam)

  datatype Campaign = Novo | Beneficio | Cartao | BeneficioCartao | OtherCampaign

  /** The campaign parameters; optional ones fall back to the defaults the
      engine reads them with. */
  datatype Params = Params(
    campaign: Campaign,              // tipo_campanha
    convenio: string,                // convenio
    comissaoMinima: Option<real>,    // comissao_minima
    margemLimite: Option<real>,      // margem_limite
    dataLimite: Option<Date>,        // data_limite_idade
    selLotacao: seq<string>,         // selecao_lotacao
    selVinculos: seq<string>,        // selecao_vinculos
    equipes: Option<string>,         // equipes
    convaiPercent: int)              // convai_percent

  function MinCommission(p: Params): real {
    p.comissaoMinima.GetOr(0.0)
  }

  /** The output columns of one product for one row, and its claim flag
      (`tratado`, `tratado_beneficio` or `tratado_cartao`). `None` is NaN: a
      column the row never had written. */
  datatype Entry = Entry(
    claimed: bool,
    valor: Option<real>,     // valor_liberado_*
    parcela: Option<real>,   // valor_parcela_*
    comissao: Option<real>,  // comissao_*
    banco: Option<string>,   // banco_*
    prazo: Option<int>)      // prazo_*

  /** A row no configuration has written. */
  const Unwritten := Entry(false, None, None, None, None, None)

  /** The combined campaign's initial columns: zeros and an empty bank. */
  const ZeroFilled := Entry(false, Some(0.0), Some(0.0), Some(0.0), Some(""), Some(0))

  /** A customer with the output columns of one product. */
  datatype Priced = Priced(c: Customer, e: Entry)

  /** A customer with benefit and card columns and `comissao_total`. */
  datatype PricedPair = PricedPair(c: Customer, b: Entry, k: Entry, total: Option<real>)

  /** A table with arbitrary columns, rows keyed by column name. */
  datatype GTable = GTable(columns: set<string>, rows: seq<map<string, Value>>)

  /** A finished table: an ordered header and positional rows. */
  datatype Sheet = Sheet(header: seq<string>, rows: seq<seq<Value>>)

  const EmptySheet := Sheet([], [])
}
