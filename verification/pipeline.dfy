/** The entry point of the campaign filter (`aplicar_filtros`): preprocess,
    run the campaign's calculator, sort by its primary column, and finalise
    a non-empty result. */
module Pipeline {
  import opened Wrappers
  import opened Model
  import opened Sorting
  import opened Preprocessing
  import opened Ledger
  import opened Calculators
  import opened Finalizing

  function OptNum(v: Option<real>): Value { if v.Some? then Num(v.value) else Null }
  function OptStr(v: Option<string>): Value { if v.Some? then Str(v.value) else Null }
  function OptInt(v: Option<int>): Value { if v.Some? then Int(v.value) else Null }

  function MarginCells(m: Margins): Row {
    map[
      "MG_Emprestimo_Disponivel" := Num(m.emprestimoDisp),
      "MG_Compulsoria_Disponivel" := Num(m.compulsoriaDisp),
      "MG_Beneficio_Saque_Total" := Num(m.saqueTotal),
      "MG_Beneficio_Saque_Disponivel" := Num(m.saqueDisp),
      "MG_Beneficio_Compra_Total" := Num(m.compraTotal),
      "MG_Beneficio_Compra_Disponivel" := Num(m.compraDisp),
      "MG_Cartao_Total" := Num(m.cartaoTotal),
      "MG_Cartao_Disponivel" := Num(m.cartaoDisp)]
  }

  const MARGIN_COLUMNS := {"MG_Emprestimo_Disponivel", "MG_Compulsoria_Disponivel",
    "MG_Beneficio_Saque_Total", "MG_Beneficio_Saque_Disponivel", "MG_Beneficio_Compra_Total",
    "MG_Beneficio_Compra_Disponivel", "MG_Cartao_Total", "MG_Cartao_Disponivel"}

  /** The output columns of one product (`emprestimo`, `beneficio`, `cartao`). */
  function EntryColumns(product: string): set<string> {
    {"valor_liberado_" + product, "valor_parcela_" + product, "comissao_" + product,
     "banco_" + product, "prazo_" + product}
  }

  function EntryCells(product: string, e: Entry): Row {
    map[
      "valor_liberado_" + product := OptNum(e.valor),
      "valor_parcela_" + product := OptNum(e.parcela),
      "comissao_" + product := OptNum(e.comissao),
      "banco_" + product := OptStr(e.banco),
      "prazo_" + product := OptInt(e.prazo)]
  }

  /** The table a single-product calculator hands on: the customer columns,
      the margins, the product columns and `tratado` (named `flag`). */
  function RenderPriced(columns: set<string>, product: string, flag: string, xs: seq<Priced>): (t: GTable)
    ensures |t.rows| == |xs|
    ensures flag in t.columns && forall c <- EntryColumns(product) :: c in t.columns
  {
    GTable(columns + MARGIN_COLUMNS + EntryColumns(product) + {flag},
      seq(|xs|, i requires 0 <= i < |xs| =>
        xs[i].c.cells + MarginCells(xs[i].c.mg) + EntryCells(product, xs[i].e)
        + map[flag := Flag(xs[i].e.claimed)]))
  }

  /** The combined campaign's table: both products, both flags and
      `comissao_total`. */
  function RenderPairs(columns: set<string>, xs: seq<PricedPair>): (t: GTable)
    ensures |t.rows| == |xs|
  {
    GTable(columns + MARGIN_COLUMNS + EntryColumns("beneficio") + EntryColumns("cartao")
             + {"tratado_beneficio", "tratado_cartao", "comissao_total"},
      seq(|xs|, i requires 0 <= i < |xs| =>
        xs[i].c.cells + MarginCells(xs[i].c.mg)
        + EntryCells("beneficio", xs[i].b) + EntryCells("cartao", xs[i].k)
        + map["tratado_beneficio" := Flag(xs[i].b.claimed), "tratado_cartao" := Flag(xs[i].k.claimed),
              "comissao_total" := OptNum(xs[i].total)]))
  }

  function FinalParamsOf(p: Params): FinalParams {
    FinalParams(p.campaign, Some(p.convenio), p.equipes, p.convaiPercent)
  }

  /** Why a run produced no table: sorting on a column that does not exist,
      or writing a scalar (the bank name, then the term) into a new column
      of a calculator table without rows (pandas refuses both). */
  datatype Failure = MissingColumn(name: string) | ScalarIntoEmpty(column: string)

  /** Novo, Benefício and Cartão: the campaigns with one calculator ledger. */
  predicate SingleProduct(c: Campaign) {
    c.Novo? || c.Beneficio? || c.Cartao?
  }

  /** The suffix of a single-product campaign's output columns. */
  function ProductOf(c: Campaign): string {
    match c
    case Novo => "emprestimo"
    case Cartao => "cartao"
    case _ => "beneficio"
  }

  /** The campaign's sort column; it exists only once a configuration ran,
      unless the input already carries it. */
  function PrimaryColumn(c: Campaign): string {
    match c
    case Novo => "valor_liberado_emprestimo"
    case Beneficio => "valor_liberado_beneficio"
    case Cartao => "valor_liberado_cartao"
    case _ => "comissao_total"
  }

  /** The bank and term columns a single-product calculator fills from a
      scalar. */
  function BankColumn(c: Campaign): string {
    match c
    case Novo => BANCO_EMPRESTIMO
    case Cartao => BANCO_CARTAO
    case _ => BANCO_BENEFICIO
  }

  function TermColumn(c: Campaign): string {
    match c
    case Novo => PRAZO_EMPRESTIMO
    case Cartao => PRAZO_CARTAO
    case _ => PRAZO_BENEFICIO
  }

  /** Some scalar write would have to create its column. */
  predicate ScalarColumnsMissing(c: Campaign, cols: set<string>) {
    BankColumn(c) !in cols || TermColumn(c) !in cols
  }

  /** The column of the first refused scalar write. */
  function ScalarColumn(c: Campaign, cols: set<string>): string {
    if BankColumn(c) !in cols then BankColumn(c) else TermColumn(c)
  }

  /** The rows a single-product campaign prices, and the entry it gives
      each of them. */
  function CampaignBase(pre: Base, p: Params): Base {
    match p.campaign
    case Novo => NovoBase(pre, p)
    case Beneficio => BenefitBase(pre, p)
    case _ => CeilingBase(pre, p)
  }

  function CampaignEntry(pre: Base, p: Params, cfgs: seq<BankConfig>, c: Customer): Entry {
    match p.campaign
    case Novo => NovoEntry(pre, p, cfgs, c)
    case Beneficio => BenefitEntry(pre, p, cfgs, c)
    case _ => CardEntry(pre, p, cfgs, c)
  }

  /** The campaign's calculator keeps no row of the preprocessed table. */
  predicate NothingToPrice(pre: Base, p: Params) {
    SingleProduct(p.campaign) && CampaignBase(pre, p).rows == []
  }

  /** The sort keys: the released value, and the combined commission. */
  function PricedValor(x: Priced): Option<real> { x.e.valor }
  function PairTotal(x: PricedPair): Option<real> { x.total }

  /** The dispatch to Novo, Benefício or Cartão, then `sort_values` on the
      released value, descending. */
  method PriceSingle(base: Base, p: Params, cfgs: seq<BankConfig>) returns (sorted: seq<Priced>, raised: bool)
    requires SingleProduct(p.campaign)
    ensures raised <==> cfgs != [] && CampaignBase(base, p).rows == [] && ScalarColumnsMissing(p.campaign, base.columns)
    ensures raised ==> sorted == []
    ensures SortedDesc(sorted, PricedValor)
    ensures forall x <- sorted ::
      && x.c in CampaignBase(base, p).rows
      && x.e == CampaignEntry(base, p, cfgs, x.c)
      && (cfgs != [] ==> MeetsMinimum(x.e.comissao, MinCommission(p)))
    ensures forall c <- CampaignBase(base, p).rows ::
      (cfgs == [] || MeetsMinimum(CampaignEntry(base, p, cfgs, c).comissao, MinCommission(p))) ==>
      Priced(c, CampaignEntry(base, p, cfgs, c)) in sorted
    ensures |sorted| <= |base.rows|
  {
    var out: seq<Priced>;
    match p.campaign {
      case Novo =>
        out, raised := CalcularNovo(base, p, cfgs);
      case Beneficio =>
        out, raised := CalcularBeneficio(base, p, cfgs);
      case Cartao =>
        out, raised := CalcularCartao(base, p, cfgs);
    }
    sorted := SortDesc(out, PricedValor);
    SortKeepsRows(out, PricedValor);
  }

  /** The combined calculator, then `sort_values` on `comissao_total`,
      descending. */
  method PriceCombo(base: Base, p: Params, cfgs: seq<BankConfig>) returns (sorted: seq<PricedPair>)
    ensures SortedDesc(sorted, PairTotal)
    ensures forall x <- sorted ::
      && x.c in CeilingBase(base, p).rows
      && x == ComboRow(base, p, cfgs, x.c)
      && MeetsMinimum(x.total, MinCommission(p))
    ensures forall c <- CeilingBase(base, p).rows ::
      MeetsMinimum(ComboRow(base, p, cfgs, c).total, MinCommission(p)) ==> ComboRow(base, p, cfgs, c) in sorted
    ensures |sorted| <= |base.rows|
  {
    var out := CalcularBeneficioECartao(base, p, cfgs);
    sorted := SortDesc(out, PairTotal);
    SortKeepsRows(out, PairTotal);
  }

  /** `aplicar_filtros`. Besides the result, the ghost results give the
      sorted calculator output (`priced` or `pairs`) and the table rendered
      from it (`calculated`), which is what the finaliser receives. */
  method AplicarFiltros(df: Base, p: Params, cfgs: seq<BankConfig>, schema: seq<string>,
                        rename: map<string, string>, today: string, pick: (nat, nat) -> set<nat>)
    returns (r: Result<Sheet, Failure>, ghost calculated: GTable, ghost priced: seq<Priced>,
             ghost pairs: seq<PricedPair>)
    requires p.convaiPercent <= 100 && SamplerSound(pick)
    ensures p.campaign.OtherCampaign? ==> r == Success(EmptySheet)
    // when and why a run fails
    ensures r.Failure? <==>
      && SingleProduct(p.campaign)
      && (cfgs == [] ==> PrimaryColumn(p.campaign) !in df.columns)
      && (cfgs != [] ==> NothingToPrice(Survivors(df, p), p) && ScalarColumnsMissing(p.campaign, df.columns))
    ensures r.Failure? && cfgs == [] ==> r.error == MissingColumn(PrimaryColumn(p.campaign))
    ensures r.Failure? && cfgs != [] ==> r.error == ScalarIntoEmpty(ScalarColumn(p.campaign, df.columns))
    // a single-product sheet: the priced rows of the campaign's base over
    // the preprocessed table, sorted by released value, each with its
    // settled entry; every row reaching the minimum commission is there
    ensures SingleProduct(p.campaign) && r.Success? ==>
      && calculated == RenderPriced(df.columns, ProductOf(p.campaign), "tratado", priced)
      && SortedDesc(priced, PricedValor)
      && (forall x <- priced ::
            && x.c in CampaignBase(Survivors(df, p), p).rows
            && x.e == CampaignEntry(Survivors(df, p), p, cfgs, x.c)
            && (cfgs != [] ==> MeetsMinimum(x.e.comissao, MinCommission(p))))
      && (forall c <- CampaignBase(Survivors(df, p), p).rows ::
            (cfgs == [] || MeetsMinimum(CampaignEntry(Survivors(df, p), p, cfgs, c).comissao, MinCommission(p))) ==>
            Priced(c, CampaignEntry(Survivors(df, p), p, cfgs, c)) in priced)
    // the combined sheet: the same, by combined commission
    ensures p.campaign.BeneficioCartao? ==>
      && r.Success?
      && calculated == RenderPairs(df.columns, pairs)
      && SortedDesc(pairs, PairTotal)
      && (forall x <- pairs ::
            && x.c in CeilingBase(Survivors(df, p), p).rows
            && x == ComboRow(Survivors(df, p), p, cfgs, x.c)
            && MeetsMinimum(x.total, MinCommission(p)))
      && (forall c <- CeilingBase(Survivors(df, p), p).rows ::
            MeetsMinimum(ComboRow(Survivors(df, p), p, cfgs, c).total, MinCommission(p)) ==>
            ComboRow(Survivors(df, p), p, cfgs, c) in pairs)
    // an empty calculation gives the empty sheet; any other is finalised
    ensures r.Success? && |calculated.rows| == 0 ==> r.value == EmptySheet
    ensures r.Success? && |calculated.rows| > 0 ==>
      Finalized(calculated, FinalParamsOf(p), schema, rename, today, pick, r.value)
    ensures r.Success? ==> |r.value.rows| <= |df.rows|
    ensures r.Success? && r.value != EmptySheet ==>
      CAMPANHA in r.value.header && forall h <- r.value.header :: h !in WORKING_COLUMNS
  {
    calculated, priced, pairs := GTable({}, []), [], [];
    var base := Preprocess(df, p);
    var t: GTable;
    if SingleProduct(p.campaign) {
      var sorted, raised := PriceSingle(base, p, cfgs);
      if raised {
        return Failure(ScalarIntoEmpty(ScalarColumn(p.campaign, base.columns))), calculated, priced, pairs;
      }
      if cfgs == [] && PrimaryColumn(p.campaign) !in base.columns {
        return Failure(MissingColumn(PrimaryColumn(p.campaign))), calculated, priced, pairs;
      }
      priced := sorted;
      t := RenderPriced(base.columns, ProductOf(p.campaign), "tratado", sorted);
    } else if p.campaign.BeneficioCartao? {
      var sorted := PriceCombo(base, p, cfgs);
      pairs := sorted;
      t := RenderPairs(base.columns, sorted);
    } else {
      return Success(EmptySheet), calculated, priced, pairs;
    }
    calculated := t;
    if |t.rows| == 0 {
      return Success(EmptySheet), calculated, priced, pairs;
    }
    var s := Finalize(t, FinalParamsOf(p), schema, rename, today, pick);
    KeptRowsBound(t, schema);
    LayoutHeader(schema, rename);
    return Success(s), calculated, priced, pairs;
  }
}
