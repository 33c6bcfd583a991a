/** The four campaign calculators (`_calcular_novo`, `_calcular_beneficio`,
    `_calcular_cartao`, `_calcular_beneficio_e_cartao`): agreement carve-outs,
    a margin threshold, the ordered loop over bank configurations on a claim
    ledger, and the minimum-commission filter. */
module Calculators {
  import opened Wrappers
  import opened Model
  import opened Conditions
  import opened Ledger
  import opened Rows
  import opened Numbers
  import opened Sorting

  const ALESP := Str("ALESP")

  /** The bank and term columns each calculator writes from a scalar. */
  const BANCO_EMPRESTIMO := "banco_emprestimo"
  const BANCO_BENEFICIO := "banco_beneficio"
  const BANCO_CARTAO := "banco_cartao"
  const PRAZO_EMPRESTIMO := "prazo_emprestimo"
  const PRAZO_BENEFICIO := "prazo_beneficio"
  const PRAZO_CARTAO := "prazo_cartao"

  /** Agreements whose benefit rows need not have an untouched saque pool. */
  const SAQUE_EXEMPT := {"prefrj", "govpi", "goval", "govce"}

  /** `margem_limite` as a floor (Novo) and as a ceiling (the others). */
  function MarginFloor(p: Params): real { p.margemLimite.GetOr(0.0) }
  function MarginCeiling(p: Params): real { p.margemLimite.GetOr(999999.0) }

  /** A commission cell passes `>= comissao_minima`; NaN never does. */
  predicate MeetsMinimum(v: Option<real>, min: real) {
    v.Some? && v.value >= min
  }

  /** Rows paired with the entries of a ledger. */
  function Zip(rows: seq<Customer>, ledger: seq<Entry>): (r: seq<Priced>)
    requires |rows| == |ledger|
    ensures |r| == |rows|
    ensures forall i :: 0 <= i < |r| ==> r[i] == Priced(rows[i], ledger[i])
  {
    seq(|rows|, i requires 0 <= i < |rows| => Priced(rows[i], ledger[i]))
  }

  // ---------------------------------------------------------------- Novo

  /** govsp: registration numbers with a negative loan margin on any row. */
  function NegativeMatriculas(rows: seq<Customer>): set<Value> {
    set c | c in rows && c.mg.emprestimoDisp < 0.0 :: Get(c.cells, MATRICULA)
  }

  /** The rows Novo prices: govsp drops every row of a registration number
      with a negative loan margin somewhere, govmt drops negative compulsory
      margins, and the loan margin must reach `margem_limite`. */
  predicate NovoKeeps(p: Params, negative: set<Value>, c: Customer) {
    && (p.convenio == "govsp" ==> Get(c.cells, MATRICULA) !in negative)
    && (p.convenio == "govmt" ==> c.mg.compulsoriaDisp >= 0.0)
    && c.mg.emprestimoDisp >= MarginFloor(p)
  }

  function NovoBase(base: Base, p: Params): (t: Base)
    ensures t.columns == base.columns
    ensures forall c :: c in t.rows <==> c in base.rows && NovoKeeps(p, NegativeMatriculas(base.rows), c)
  {
    var negative := NegativeMatriculas(base.rows);
    Base(base.columns, Where(base.rows, (c: Customer) => NovoKeeps(p, negative, c)))
  }

  /** The Novo entry of an eligible row once every configuration has run. */
  function NovoEntry(base: Base, p: Params, cfgs: seq<BankConfig>, c: Customer): Entry {
    Settled(NovoBase(base, p), LoanFormula, AllConfigs, {}, Unwritten, cfgs, c)
  }

  /** The carve-outs and the margin floor of Novo, filter by filter. */
  method NovoRows(base: Base, p: Params) returns (rows: seq<Customer>)
    ensures SameRows(Base(base.columns, rows), NovoBase(base, p))
    ensures |rows| <= |base.rows|
  {
    rows := base.rows;
    var negative := NegativeMatriculas(rows);
    if p.convenio == "govsp" {
      rows := Where(rows, (c: Customer) => Get(c.cells, MATRICULA) !in negative);
    } else if p.convenio == "govmt" {
      rows := Where(rows, (c: Customer) => c.mg.compulsoriaDisp >= 0.0);
    }
    rows := Where(rows, (c: Customer) => c.mg.emprestimoDisp >= MarginFloor(p));
  }

  method CalcularNovo(base: Base, p: Params, cfgs: seq<BankConfig>) returns (out: seq<Priced>, raised: bool)
    ensures raised <==> cfgs != [] && NovoBase(base, p).rows == [] && (BANCO_EMPRESTIMO !in base.columns || PRAZO_EMPRESTIMO !in base.columns)
    ensures raised ==> out == []
    ensures forall x <- out :: x.c in NovoBase(base, p).rows && x.e == NovoEntry(base, p, cfgs, x.c)
    ensures forall c <- NovoBase(base, p).rows ::
      (cfgs == [] || MeetsMinimum(NovoEntry(base, p, cfgs, c).comissao, MinCommission(p))) ==>
      Priced(c, NovoEntry(base, p, cfgs, c)) in out
    ensures forall x <- out :: x.c in base.rows && x.c.mg.emprestimoDisp >= MarginFloor(p)
    ensures cfgs != [] ==> forall x <- out :: MeetsMinimum(x.e.comissao, MinCommission(p))
    ensures |out| <= |base.rows|
  {
    raised := false;
    var rows := NovoRows(base, p);
    var t := Base(base.columns, rows);

    var ledger := seq(|rows|, _ => Unwritten);
    var written := false;  // whether `comissao_emprestimo` exists
    var k := 0;
    while k < |cfgs|
      invariant k <= |cfgs| && |ledger| == |rows|
      invariant written <==> k > 0
      invariant k > 0 ==> |rows| > 0 || (BANCO_EMPRESTIMO in t.columns && PRAZO_EMPRESTIMO in t.columns)
      invariant forall i :: 0 <= i < |ledger| ==>
        ledger[i] == Settled(t, LoanFormula, AllConfigs, {}, Unwritten, cfgs[..k], rows[i])
    {
      // pandas refuses to add a column to a table without rows from a
      // scalar, and the bank name and the term are scalars
      if |rows| == 0 && (BANCO_EMPRESTIMO !in t.columns || PRAZO_EMPRESTIMO !in t.columns) {
        SameRowsEmpty(t, NovoBase(base, p));
        return [], true;
      }
      StepSettles(t, LoanFormula, AllConfigs, {}, Unwritten, cfgs, k, ledger);
      ledger := Step(t, LoanFormula, AllConfigs, {}, cfgs[k], ledger);
      written := true;
      k := k + 1;
    }
    SameRowsEmpty(t, NovoBase(base, p));
    assert cfgs[..k] == cfgs;
    forall i | 0 <= i < |ledger|
      ensures ledger[i] == NovoEntry(base, p, cfgs, rows[i])
    {
      SettledIgnoresOrder(t, NovoBase(base, p), LoanFormula, AllConfigs, {}, Unwritten, cfgs, rows[i]);
    }
    out := Zip(rows, ledger);
    if written {
      out := Where(out, (x: Priced) => MeetsMinimum(x.e.comissao, MinCommission(p)));
    }
  }

  /** The rows each calculator starts from do not depend on the order of
      the table's rows. */
  lemma BasesIgnoreOrder(t1: Base, t2: Base, p: Params)
    requires SameRows(t1, t2)
    ensures SameRows(NovoBase(t1, p), NovoBase(t2, p))
    ensures SameRows(BenefitBase(t1, p), BenefitBase(t2, p))
    ensures SameRows(CeilingBase(t1, p), CeilingBase(t2, p))
  {
    assert NegativeMatriculas(t1.rows) == NegativeMatriculas(t2.rows) by {
      forall m | m in NegativeMatriculas(t1.rows) ensures m in NegativeMatriculas(t2.rows) {
        var c :| c in t1.rows && c.mg.emprestimoDisp < 0.0 && Get(c.cells, MATRICULA) == m;
        assert c in t2.rows;
      }
      forall m | m in NegativeMatriculas(t2.rows) ensures m in NegativeMatriculas(t1.rows) {
        var c :| c in t2.rows && c.mg.emprestimoDisp < 0.0 && Get(c.cells, MATRICULA) == m;
        assert c in t1.rows;
      }
    }
  }

  // ----------------------------------------------------------- Benefício

  predicate SaqueUntouched(c: Customer) { c.mg.saqueDisp == c.mg.saqueTotal }
  predicate NotAlesp(c: Customer) { Get(c.cells, LOTACAO) != ALESP }
  predicate BelowCeiling(p: Params, c: Customer) { c.mg.emprestimoDisp < MarginCeiling(p) }

  /** govsp: registration numbers that have used part of their saque pool. */
  function UsedSaque(rows: seq<Customer>): set<Value> {
    set c | c in rows && c.mg.saqueTotal - c.mg.saqueDisp > 0.0 :: Get(c.cells, MATRICULA)
  }

  /** The rows Benefício prices: govsp needs an untouched saque pool and a
      lotação other than ALESP; every agreement outside SAQUE_EXEMPT needs an
      untouched saque pool; the loan margin stays under `margem_limite`. */
  predicate BenefitKeeps(p: Params, c: Customer) {
    && (p.convenio == "govsp" ==> SaqueUntouched(c) && NotAlesp(c))
    && (p.convenio !in SAQUE_EXEMPT ==> SaqueUntouched(c))
    && BelowCeiling(p, c)
  }

  function BenefitBase(base: Base, p: Params): (t: Base)
    ensures t.columns == base.columns
    ensures forall c :: c in t.rows <==> c in base.rows && BenefitKeeps(p, c)
  {
    Base(base.columns, Where(base.rows, (c: Customer) => BenefitKeeps(p, c)))
  }

  function BenefitFormula(convenio: string): Formula {
    if convenio == "goval" then GovalFormula
    else if convenio == "govam" then GovamFormula
    else SaqueFormula
  }

  function BenefitUsed(base: Base, p: Params): set<Value> {
    if p.convenio == "govsp" then UsedSaque(base.rows) else {}
  }

  function BenefitEntry(base: Base, p: Params, cfgs: seq<BankConfig>, c: Customer): Entry {
    Settled(BenefitBase(base, p), BenefitFormula(p.convenio), AllConfigs, BenefitUsed(base, p), Unwritten, cfgs, c)
  }

  /** The carve-outs and the threshold, then the sort by available saque
      margin, descending. */
  method BenefitRows(base: Base, p: Params) returns (rows: seq<Customer>, used: set<Value>)
    ensures SameRows(Base(base.columns, rows), BenefitBase(base, p))
    ensures used == BenefitUsed(base, p)
    ensures |rows| <= |base.rows|
  {
    rows := base.rows;
    used := {};
    if p.convenio == "govsp" {
      used := UsedSaque(rows);
      rows := Where(rows, SaqueUntouched);
      rows := Where(rows, NotAlesp);
    }
    if p.convenio !in SAQUE_EXEMPT {
      rows := Where(rows, SaqueUntouched);
    }
    rows := Where(rows, (c: Customer) => BelowCeiling(p, c));
    SortKeepsRows(rows, (c: Customer) => Some(c.mg.saqueDisp));
    rows := SortDesc(rows, (c: Customer) => Some(c.mg.saqueDisp));
  }

  method CalcularBeneficio(base: Base, p: Params, cfgs: seq<BankConfig>) returns (out: seq<Priced>, raised: bool)
    ensures raised <==> cfgs != [] && BenefitBase(base, p).rows == [] && (BANCO_BENEFICIO !in base.columns || PRAZO_BENEFICIO !in base.columns)
    ensures raised ==> out == []
    ensures forall x <- out :: x.c in BenefitBase(base, p).rows && x.e == BenefitEntry(base, p, cfgs, x.c)
    ensures forall c <- BenefitBase(base, p).rows ::
      (cfgs == [] || MeetsMinimum(BenefitEntry(base, p, cfgs, c).comissao, MinCommission(p))) ==>
      Priced(c, BenefitEntry(base, p, cfgs, c)) in out
    ensures forall x <- out :: x.c in base.rows && x.c.mg.emprestimoDisp < MarginCeiling(p)
    ensures forall x <- out :: p.convenio !in SAQUE_EXEMPT ==> x.c.mg.saqueDisp == x.c.mg.saqueTotal
    ensures cfgs != [] ==> forall x <- out :: MeetsMinimum(x.e.comissao, MinCommission(p))
    ensures |out| <= |base.rows|
  {
    raised := false;
    var rows, used := BenefitRows(base, p);
    var t := Base(base.columns, rows);
    var f := BenefitFormula(p.convenio);

    var ledger := seq(|rows|, _ => Unwritten);
    var written := false;  // whether `comissao_beneficio` exists
    var k := 0;
    while k < |cfgs|
      invariant k <= |cfgs| && |ledger| == |rows|
      invariant written <==> k > 0
      invariant k > 0 ==> |rows| > 0 || (BANCO_BENEFICIO in t.columns && PRAZO_BENEFICIO in t.columns)
      invariant forall i :: 0 <= i < |ledger| ==>
        ledger[i] == Settled(t, f, AllConfigs, used, Unwritten, cfgs[..k], rows[i])
    {
      // pandas refuses to add a column to a table without rows from a
      // scalar, and the bank name and the term are scalars
      if |rows| == 0 && (BANCO_BENEFICIO !in t.columns || PRAZO_BENEFICIO !in t.columns) {
        SameRowsEmpty(t, BenefitBase(base, p));
        return [], true;
      }
      StepSettles(t, f, AllConfigs, used, Unwritten, cfgs, k, ledger);
      ledger := Step(t, f, AllConfigs, used, cfgs[k], ledger);
      written := true;
      k := k + 1;
    }
    SameRowsEmpty(t, BenefitBase(base, p));
    assert cfgs[..k] == cfgs;
    forall i | 0 <= i < |ledger|
      ensures ledger[i] == BenefitEntry(base, p, cfgs, rows[i])
    {
      SettledIgnoresOrder(t, BenefitBase(base, p), f, AllConfigs, used, Unwritten, cfgs, rows[i]);
    }
    out := Zip(rows, ledger);
    if written {
      out := Where(out, (x: Priced) => MeetsMinimum(x.e.comissao, MinCommission(p)));
    }
  }

  // -------------------------------------------------------------- Cartão

  /** govsp: registration numbers that have used part of their card margin. */
  function UsedCard(rows: seq<Customer>): set<Value> {
    set c | c in rows && c.mg.cartaoTotal - c.mg.cartaoDisp > 0.0 :: Get(c.cells, MATRICULA)
  }

  /** The rows Cartão and the combined campaign price: govsp drops lotação
      ALESP; the loan margin stays under `margem_limite`. */
  predicate CeilingKeeps(p: Params, c: Customer) {
    (p.convenio == "govsp" ==> NotAlesp(c)) && BelowCeiling(p, c)
  }

  function CeilingBase(base: Base, p: Params): (t: Base)
    ensures t.columns == base.columns
    ensures forall c :: c in t.rows <==> c in base.rows && CeilingKeeps(p, c)
  {
    Base(base.columns, Where(base.rows, (c: Customer) => CeilingKeeps(p, c)))
  }

  /** govsp computes the used registrations after dropping ALESP. */
  function CardUsed(base: Base, p: Params): set<Value> {
    if p.convenio == "govsp" then UsedCard(Where(base.rows, NotAlesp)) else {}
  }

  function CardEntry(base: Base, p: Params, cfgs: seq<BankConfig>, c: Customer): Entry {
    Settled(CeilingBase(base, p), CardFormula, AllConfigs, CardUsed(base, p), Unwritten, cfgs, c)
  }

  method CardRows(base: Base, p: Params) returns (rows: seq<Customer>, used: set<Value>)
    ensures SameRows(Base(base.columns, rows), CeilingBase(base, p))
    ensures used == CardUsed(base, p)
    ensures |rows| <= |base.rows|
  {
    rows := base.rows;
    used := {};
    if p.convenio == "govsp" {
      rows := Where(rows, NotAlesp);
      used := UsedCard(rows);
    }
    rows := Where(rows, (c: Customer) => BelowCeiling(p, c));
  }

  method CalcularCartao(base: Base, p: Params, cfgs: seq<BankConfig>) returns (out: seq<Priced>, raised: bool)
    ensures raised <==> cfgs != [] && CeilingBase(base, p).rows == [] && (BANCO_CARTAO !in base.columns || PRAZO_CARTAO !in base.columns)
    ensures raised ==> out == []
    ensures forall x <- out :: x.c in CeilingBase(base, p).rows && x.e == CardEntry(base, p, cfgs, x.c)
    ensures forall c <- CeilingBase(base, p).rows ::
      (cfgs == [] || MeetsMinimum(CardEntry(base, p, cfgs, c).comissao, MinCommission(p))) ==>
      Priced(c, CardEntry(base, p, cfgs, c)) in out
    ensures forall x <- out :: x.c in base.rows && x.c.mg.emprestimoDisp < MarginCeiling(p)
    ensures cfgs != [] ==> forall x <- out :: MeetsMinimum(x.e.comissao, MinCommission(p))
    ensures |out| <= |base.rows|
  {
    raised := false;
    var rows, used := CardRows(base, p);
    var t := Base(base.columns, rows);

    var ledger := seq(|rows|, _ => Unwritten);
    var written := false;  // whether `comissao_cartao` exists
    var k := 0;
    while k < |cfgs|
      invariant k <= |cfgs| && |ledger| == |rows|
      invariant written <==> k > 0
      invariant k > 0 ==> |rows| > 0 || (BANCO_CARTAO in t.columns && PRAZO_CARTAO in t.columns)
      invariant forall i :: 0 <= i < |ledger| ==>
        ledger[i] == Settled(t, CardFormula, AllConfigs, used, Unwritten, cfgs[..k], rows[i])
    {
      // pandas refuses to add a column to a table without rows from a
      // scalar, and the bank name and the term are scalars
      if |rows| == 0 && (BANCO_CARTAO !in t.columns || PRAZO_CARTAO !in t.columns) {
        SameRowsEmpty(t, CeilingBase(base, p));
        return [], true;
      }
      StepSettles(t, CardFormula, AllConfigs, used, Unwritten, cfgs, k, ledger);
      ledger := Step(t, CardFormula, AllConfigs, used, cfgs[k], ledger);
      written := true;
      k := k + 1;
    }
    SameRowsEmpty(t, CeilingBase(base, p));
    assert cfgs[..k] == cfgs;
    forall i | 0 <= i < |ledger|
      ensures ledger[i] == CardEntry(base, p, cfgs, rows[i])
    {
      SettledIgnoresOrder(t, CeilingBase(base, p), CardFormula, AllConfigs, used, Unwritten, cfgs, rows[i]);
    }
    out := Zip(rows, ledger);
    if written {
      out := Where(out, (x: Priced) => MeetsMinimum(x.e.comissao, MinCommission(p)));
    }
  }

  // -------------------------------------------------- Benefício & Cartão

  /** `comissao_total`: the rounded sum; NaN if either part is NaN. */
  function Total(b: Option<real>, k: Option<real>): (r: Option<real>)
    ensures r.Some? <==> b.Some? && k.Some?
    ensures b.Some? && k.Some? && b.value >= 0.0 && k.value >= 0.0 ==> r.value >= 0.0
  {
    if b.Some? && k.Some? then
      Round2Facts(b.value + k.value);
      Some(Round2(b.value + k.value))
    else None
  }

  /** govsp, combined campaign: registrations with a used saque pool, after
      dropping ALESP. */
  function ComboUsedSaque(base: Base, p: Params): set<Value> {
    if p.convenio == "govsp" then UsedSaque(Where(base.rows, NotAlesp)) else {}
  }

  function ComboFormula(convenio: string): Formula {
    if convenio == "goval" then GovalFormula else SaqueFormula
  }

  /** The benefit columns of a row: only "Benefício" configurations, from
      zero-filled columns. */
  function ComboBenefit(base: Base, p: Params, cfgs: seq<BankConfig>, c: Customer): Entry {
    Settled(CeilingBase(base, p), ComboFormula(p.convenio), OnlyProduct(BenefitProduct),
            ComboUsedSaque(base, p), ZeroFilled, cfgs, c)
  }

  /** The card columns of a row: only "Consignado" configurations. */
  function ComboCard(base: Base, p: Params, cfgs: seq<BankConfig>, c: Customer): Entry {
    Settled(CeilingBase(base, p), CardFormula, OnlyProduct(CardProduct),
            CardUsed(base, p), ZeroFilled, cfgs, c)
  }

  function ComboRow(base: Base, p: Params, cfgs: seq<BankConfig>, c: Customer): PricedPair {
    var b := ComboBenefit(base, p, cfgs, c);
    var k := ComboCard(base, p, cfgs, c);
    PricedPair(c, b, k, Total(b.comissao, k.comissao))
  }

  method ComboRows(base: Base, p: Params) returns (rows: seq<Customer>, usedSaque: set<Value>, usedCard: set<Value>)
    ensures SameRows(Base(base.columns, rows), CeilingBase(base, p))
    ensures usedSaque == ComboUsedSaque(base, p) && usedCard == CardUsed(base, p)
    ensures |rows| <= |base.rows|
  {
    rows := base.rows;
    usedSaque, usedCard := {}, {};
    if p.convenio == "govsp" {
      rows := Where(rows, NotAlesp);
      usedSaque, usedCard := UsedSaque(rows), UsedCard(rows);
    }
    rows := Where(rows, (c: Customer) => BelowCeiling(p, c));
  }

  /** The benefit and the card ledgers of the combined campaign, run side
      by side: each configuration goes to the ledger of its product, since
      a ledger's selector passes over every other configuration. */
  method ComboLedgers(t: Base, fb: Formula, usedSaque: set<Value>, usedCard: set<Value>, cfgs: seq<BankConfig>)
    returns (lb: seq<Entry>, lc: seq<Entry>)
    ensures |lb| == |t.rows| && |lc| == |t.rows|
    ensures forall i :: 0 <= i < |t.rows| ==>
      lb[i] == Settled(t, fb, OnlyProduct(BenefitProduct), usedSaque, ZeroFilled, cfgs, t.rows[i])
    ensures forall i :: 0 <= i < |t.rows| ==>
      lc[i] == Settled(t, CardFormula, OnlyProduct(CardProduct), usedCard, ZeroFilled, cfgs, t.rows[i])
  {
    var benefit, card := OnlyProduct(BenefitProduct), OnlyProduct(CardProduct);
    lb := seq(|t.rows|, _ => ZeroFilled);
    lc := seq(|t.rows|, _ => ZeroFilled);
    var k := 0;
    while k < |cfgs|
      invariant k <= |cfgs| && |lb| == |t.rows| && |lc| == |t.rows|
      invariant forall i :: 0 <= i < |t.rows| ==>
        lb[i] == Settled(t, fb, benefit, usedSaque, ZeroFilled, cfgs[..k], t.rows[i])
      invariant forall i :: 0 <= i < |t.rows| ==>
        lc[i] == Settled(t, CardFormula, card, usedCard, ZeroFilled, cfgs[..k], t.rows[i])
    {
      StepSettles(t, fb, benefit, usedSaque, ZeroFilled, cfgs, k, lb);
      StepSettles(t, CardFormula, card, usedCard, ZeroFilled, cfgs, k, lc);
      // each ledger's selector passes over the other product's configurations
      lb := Step(t, fb, benefit, usedSaque, cfgs[k], lb);
      lc := Step(t, CardFormula, card, usedCard, cfgs[k], lc);
      k := k + 1;
    }
    assert cfgs[..k] == cfgs;
  }

  method CalcularBeneficioECartao(base: Base, p: Params, cfgs: seq<BankConfig>) returns (out: seq<PricedPair>)
    ensures forall x <- out :: x.c in CeilingBase(base, p).rows && x == ComboRow(base, p, cfgs, x.c)
    ensures forall c <- CeilingBase(base, p).rows ::
      MeetsMinimum(ComboRow(base, p, cfgs, c).total, MinCommission(p)) ==> ComboRow(base, p, cfgs, c) in out
    ensures forall x <- out :: x.c in base.rows && x.c.mg.emprestimoDisp < MarginCeiling(p)
    ensures forall x <- out :: MeetsMinimum(x.total, MinCommission(p))
    ensures |out| <= |base.rows|
  {
    var rows, usedSaque, usedCard := ComboRows(base, p);
    var t := Base(base.columns, rows);
    var fb := ComboFormula(p.convenio);
    var lb, lc := ComboLedgers(t, fb, usedSaque, usedCard, cfgs);
    var all := seq(|rows|, i requires 0 <= i < |rows| =>
      PricedPair(rows[i], lb[i], lc[i], Total(lb[i].comissao, lc[i].comissao)));
    forall i | 0 <= i < |rows|
      ensures all[i] == ComboRow(base, p, cfgs, rows[i])
    {
      SettledIgnoresOrder(t, CeilingBase(base, p), fb, OnlyProduct(BenefitProduct), usedSaque, ZeroFilled, cfgs, rows[i]);
      SettledIgnoresOrder(t, CeilingBase(base, p), CardFormula, OnlyProduct(CardProduct), usedCard, ZeroFilled, cfgs, rows[i]);
    }
    out := Where(all, (x: PricedPair) => MeetsMinimum(x.total, MinCommission(p)));
  }
}
