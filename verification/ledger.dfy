/** The claim ledger shared by the four calculators: the output columns of
    one product and the claim flag (`tratado`) of every row, rewritten
    configuration by configuration. A configuration claims the rows of its
    mask that no earlier configuration claimed and writes released value,
    installment, commission, bank and term on them. */
module Ledger {
  import opened Wrappers
  import opened Numbers
  import opened SafetyMargin
  import opened Model
  import opened Conditions

  /** How a calculator prices the rows a configuration claims. */
  datatype Formula =
    | LoanFormula    // Novo: MG_Emprestimo_Disponivel
    | SaqueFormula   // Benefício, most agreements: MG_Beneficio_Saque_Disponivel
    | GovalFormula   // Benefício, goval: saque plus compra when both pools are full
    | GovamFormula   // Benefício, govam: one pool, written only on a narrower mask
    | CardFormula    // Cartão: MG_Cartao_Disponivel, all or nothing

  /** Which configurations a ledger listens to: the combined campaign routes
      each configuration to the benefit or the card ledger by its product. */
  datatype Selector = AllConfigs | OnlyProduct(product: Product)

  predicate Selected(sel: Selector, cfg: BankConfig) {
    sel.AllConfigs? || cfg.product == sel.product
  }

  /** Both benefit pools are untouched. */
  predicate FullPools(c: Customer) {
    c.mg.saqueDisp == c.mg.saqueTotal && c.mg.compraDisp == c.mg.compraTotal
  }

  /** Whether the released value is written on a claimed row: everywhere,
      except that govam writes it only where the chosen pool is usable. */
  predicate Writes(f: Formula, cfg: BankConfig, c: Customer) {
    match f
    case GovamFormula =>
      c.mg.saqueTotal == c.mg.saqueDisp &&
      (if cfg.usarMargemCompra then c.mg.compraTotal == c.mg.compraDisp
       else c.mg.compraTotal != c.mg.compraDisp)
    case _ => true
  }

  /** The released value a configuration offers a row: the adjusted margin
      times the coefficient, rounded; `None` where a missing `coeficiente2`
      makes it NaN. */
  function Offer(f: Formula, cfg: BankConfig, c: Customer): Option<real> {
    match f
    case LoanFormula => Some(Round2(Adjust(cfg.safety, c.mg.emprestimoDisp) * cfg.coef))
    case SaqueFormula => Some(Round2(Adjust(cfg.safety, c.mg.saqueDisp) * cfg.coef))
    case GovalFormula =>
      if FullPools(c) then Some(Round2(Adjust(cfg.safety, c.mg.saqueDisp + c.mg.compraDisp) * cfg.coef))
      else if cfg.coef2.Some? then Some(Round2(Adjust(cfg.safety, c.mg.saqueDisp) * cfg.coef2.value))
      else None
    case GovamFormula =>
      var pool := if cfg.usarMargemCompra then c.mg.compraDisp else c.mg.saqueDisp;
      Some(Round2(Adjust(cfg.safety, pool) * cfg.coef))
    case CardFormula =>
      Some(if c.mg.cartaoTotal == c.mg.cartaoDisp
           then Round2(Adjust(cfg.safety, c.mg.cartaoDisp) * cfg.coef) else 0.0)
  }

  /** The commission on a released value, `comissao` being a percentage. */
  function Commission(valor: Option<real>, pct: real): (r: Option<real>)
    ensures r.Some? <==> valor.Some?
    ensures valor == Some(0.0) ==> r == Some(0.0)
    ensures valor.Some? && valor.value >= 0.0 && pct >= 0.0 ==> r.value >= 0.0
  {
    Round2Facts(0.0);
    if valor.Some? then
      Round2Facts(valor.value * (pct / 100.0));
      Some(Round2(valor.value * (pct / 100.0)))
    else None
  }

  /** The installment of a released value; a zero `coeficiente_parcela`
      yields no number. */
  function Installment(valor: Option<real>, coefParcela: real): (r: Option<real>)
    ensures r.Some? <==> valor.Some? && coefParcela != 0.0
    ensures valor == Some(0.0) && coefParcela != 0.0 ==> r == Some(0.0)
  {
    Round2Facts(0.0);
    if valor.Some? && coefParcela != 0.0 then Some(Round2(valor.value / coefParcela)) else None
  }

  /** The entry a configuration writes on a row it claims, given the
      released value the row then holds. Novo's installment is the adjusted
      margin itself. */
  function Claim(f: Formula, cfg: BankConfig, c: Customer, valor: Option<real>): (e: Entry)
    ensures e.claimed && e.valor == valor
    ensures e.banco == Some(cfg.banco) && e.prazo == Some(cfg.parcelas)
    ensures e.comissao == Commission(valor, cfg.comissao)
  {
    var parcela := if f.LoanFormula? then Some(Round2(Adjust(cfg.safety, c.mg.emprestimoDisp)))
                   else Installment(valor, cfg.coefParcela);
    Entry(true, valor, parcela, Commission(valor, cfg.comissao), Some(cfg.banco), Some(cfg.parcelas))
  }

  /** govsp: the row's registration number belongs to a customer who has
      already used this product's margin. */
  predicate UsedElsewhere(used: set<Value>, c: Customer) {
    Get(c.cells, MATRICULA) in used
  }

  /** One configuration's writes on one row: the released value on the
      mask (narrowed for govam), then the govsp zeroing on every row, then
      the other columns and the claim on the mask. */
  function StepEntry(f: Formula, cfg: BankConfig, c: Customer, e: Entry, inMask: bool, zero: bool): Entry {
    var written := if inMask && Writes(f, cfg, c) then Offer(f, cfg, c) else e.valor;
    var valor := if zero then Some(0.0) else written;
    if inMask then Claim(f, cfg, c, valor) else e.(valor := valor)
  }

  /** The claim flags of a ledger. */
  function Claims(ledger: seq<Entry>): (r: seq<bool>)
    ensures |r| == |ledger| && forall i :: 0 <= i < |r| ==> r[i] == ledger[i].claimed
  {
    seq(|ledger|, i requires 0 <= i < |ledger| => ledger[i].claimed)
  }

  /** What one configuration does to the ledger of table `t`. */
  function Step(t: Base, f: Formula, sel: Selector, used: set<Value>, cfg: BankConfig, ledger: seq<Entry>): (r: seq<Entry>)
    requires |ledger| == |t.rows|
    ensures |r| == |ledger|
    // the claim flag only goes from false to true, and exactly on the mask
    ensures forall i :: 0 <= i < |r| ==>
      r[i].claimed == (ledger[i].claimed || (Selected(sel, cfg) && Applies(t, cfg.cond, t.rows[i])))
    // a row claimed earlier keeps every column but the released value,
    // which only the govsp zeroing touches
    ensures forall i :: 0 <= i < |r| && ledger[i].claimed ==>
      r[i] == if Selected(sel, cfg) && UsedElsewhere(used, t.rows[i]) then ledger[i].(valor := Some(0.0)) else ledger[i]
  {
    if !Selected(sel, cfg) then ledger
    else
      var m := Mask(t, cfg.cond, Claims(ledger));
      seq(|ledger|, i requires 0 <= i < |ledger| =>
        StepEntry(f, cfg, t.rows[i], ledger[i], m[i], UsedElsewhere(used, t.rows[i])))
  }

  /** The first selected configuration whose condition holds for `c`. */
  function FirstClaim(t: Base, sel: Selector, cfgs: seq<BankConfig>, c: Customer): (r: Option<nat>)
    ensures r.Some? ==> r.value < |cfgs| && Selected(sel, cfgs[r.value]) && Applies(t, cfgs[r.value].cond, c)
    ensures r.Some? ==> forall j :: 0 <= j < r.value && Selected(sel, cfgs[j]) ==> !Applies(t, cfgs[j].cond, c)
    ensures r.None? ==> forall j :: 0 <= j < |cfgs| && Selected(sel, cfgs[j]) ==> !Applies(t, cfgs[j].cond, c)
    decreases |cfgs|
  {
    if cfgs == [] then None
    else
      var last := |cfgs| - 1;
      var prev := FirstClaim(t, sel, cfgs[..last], c);
      if prev.Some? then prev
      else if Selected(sel, cfgs[last]) && Applies(t, cfgs[last].cond, c) then Some(last)
      else None
  }

  /** Some configuration is routed to this ledger. */
  predicate AnySelected(sel: Selector, cfgs: seq<BankConfig>) {
    exists j :: 0 <= j < |cfgs| && Selected(sel, cfgs[j])
  }

  /** The entry of row `c` once configurations `cfgs` have run, stated
      without the loop: the first applicable configuration prices it; govsp
      zeroing wins over any value. */
  function Settled(t: Base, f: Formula, sel: Selector, used: set<Value>, init: Entry,
                   cfgs: seq<BankConfig>, c: Customer): Entry
  {
    var zero := UsedElsewhere(used, c);
    match FirstClaim(t, sel, cfgs, c)
    case Some(j) =>
      var cfg := cfgs[j];
      Claim(f, cfg, c, if zero then Some(0.0) else if Writes(f, cfg, c) then Offer(f, cfg, c) else init.valor)
    case None =>
      if zero && AnySelected(sel, cfgs) then init.(valor := Some(0.0)) else init
  }

  /** Running configuration `cfgs[k]` on the ledger settled by `cfgs[..k]`
      settles it for `cfgs[..k + 1]`. */
  lemma StepSettles(t: Base, f: Formula, sel: Selector, used: set<Value>, init: Entry,
                    cfgs: seq<BankConfig>, k: nat, ledger: seq<Entry>)
    requires k < |cfgs| && |ledger| == |t.rows| && !init.claimed
    requires forall i :: 0 <= i < |ledger| ==> ledger[i] == Settled(t, f, sel, used, init, cfgs[..k], t.rows[i])
    ensures forall i :: 0 <= i < |ledger| ==>
      Step(t, f, sel, used, cfgs[k], ledger)[i] == Settled(t, f, sel, used, init, cfgs[..k + 1], t.rows[i])
  {
    var pre, post := cfgs[..k], cfgs[..k + 1];
    assert post == pre + [cfgs[k]];
    AnySelectedSnoc(sel, pre, cfgs[k]);
    forall i | 0 <= i < |ledger|
      ensures Step(t, f, sel, used, cfgs[k], ledger)[i] == Settled(t, f, sel, used, init, post, t.rows[i])
    {
      StepSettlesRow(t, f, sel, used, init, pre, cfgs[k], ledger, i);
    }
  }

  lemma AnySelectedSnoc(sel: Selector, pre: seq<BankConfig>, cfg: BankConfig)
    ensures AnySelected(sel, pre + [cfg]) <==> AnySelected(sel, pre) || Selected(sel, cfg)
  {
    var post := pre + [cfg];
    if AnySelected(sel, pre) {
      var j :| 0 <= j < |pre| && Selected(sel, pre[j]);
      assert post[j] == pre[j];
    }
    if Selected(sel, cfg) {
      assert post[|pre|] == cfg;
    }
    if AnySelected(sel, post) && !Selected(sel, cfg) {
      var j :| 0 <= j < |post| && Selected(sel, post[j]);
      assert pre[j] == post[j];
    }
  }

  /** The same, one row at a time. */
  lemma StepSettlesRow(t: Base, f: Formula, sel: Selector, used: set<Value>, init: Entry,
                       pre: seq<BankConfig>, cfg: BankConfig, ledger: seq<Entry>, i: nat)
    requires |ledger| == |t.rows| && i < |ledger| && !init.claimed
    requires ledger[i] == Settled(t, f, sel, used, init, pre, t.rows[i])
    requires AnySelected(sel, pre + [cfg]) <==> AnySelected(sel, pre) || Selected(sel, cfg)
    ensures Step(t, f, sel, used, cfg, ledger)[i] == Settled(t, f, sel, used, init, pre + [cfg], t.rows[i])
  {
    var c := t.rows[i];
    if !Selected(sel, cfg) {
      SettledSkips(t, f, sel, used, init, pre, cfg, c);
    } else {
      var m := Mask(t, cfg.cond, Claims(ledger));
      assert m[i] == (!ledger[i].claimed && Applies(t, cfg.cond, c));
      SettledStep(t, f, sel, used, init, pre, cfg, c);
    }
  }

  /** A configuration routed elsewhere changes nothing. */
  lemma SettledSkips(t: Base, f: Formula, sel: Selector, used: set<Value>, init: Entry,
                     pre: seq<BankConfig>, cfg: BankConfig, c: Customer)
    requires !Selected(sel, cfg)
    requires AnySelected(sel, pre + [cfg]) <==> AnySelected(sel, pre) || Selected(sel, cfg)
    ensures Settled(t, f, sel, used, init, pre + [cfg], c) == Settled(t, f, sel, used, init, pre, c)
  {
    assert (pre + [cfg])[..|pre|] == pre;
  }

  /** A selected configuration applies `StepEntry` to the settled entry. */
  lemma SettledStep(t: Base, f: Formula, sel: Selector, used: set<Value>, init: Entry,
                    pre: seq<BankConfig>, cfg: BankConfig, c: Customer)
    requires Selected(sel, cfg) && !init.claimed
    requires AnySelected(sel, pre + [cfg])
    ensures var e := Settled(t, f, sel, used, init, pre, c);
      StepEntry(f, cfg, c, e, !e.claimed && Applies(t, cfg.cond, c), UsedElsewhere(used, c))
      == Settled(t, f, sel, used, init, pre + [cfg], c)
  {
    var post := pre + [cfg];
    assert post[..|pre|] == pre;
    var prev := FirstClaim(t, sel, pre, c);
    if prev.Some? {
      assert post[prev.value] == pre[prev.value];
    } else {
      assert post[|pre|] == cfg;
    }
  }

  /** First claim wins: the first selected configuration whose condition
      holds claims the row and supplies its bank, term and commission. */
  lemma FirstMatchWins(t: Base, f: Formula, sel: Selector, used: set<Value>, init: Entry,
                       cfgs: seq<BankConfig>, c: Customer, j: nat)
    requires j < |cfgs| && Selected(sel, cfgs[j]) && Applies(t, cfgs[j].cond, c)
    requires forall i :: 0 <= i < j && Selected(sel, cfgs[i]) ==> !Applies(t, cfgs[i].cond, c)
    ensures var e := Settled(t, f, sel, used, init, cfgs, c);
      && e.claimed
      && e.banco == Some(cfgs[j].banco)
      && e.prazo == Some(cfgs[j].parcelas)
      && e.comissao == Commission(e.valor, cfgs[j].comissao)
  {
  }

  /** A row no selected configuration applies to stays unclaimed and keeps
      its initial columns, except for the govsp zeroing. */
  lemma NoMatchStaysUnclaimed(t: Base, f: Formula, sel: Selector, used: set<Value>, init: Entry,
                              cfgs: seq<BankConfig>, c: Customer)
    requires forall j :: 0 <= j < |cfgs| && Selected(sel, cfgs[j]) ==> !Applies(t, cfgs[j].cond, c)
    ensures var e := Settled(t, f, sel, used, init, cfgs, c);
      e == init || (UsedElsewhere(used, c) && e == init.(valor := Some(0.0)))
  {
  }

  /** Card rule: a claimed row whose card margin has been touched gets a
      released value of 0 whatever the coefficient, and so a commission of 0. */
  lemma CardAllOrNothing(t: Base, sel: Selector, used: set<Value>, init: Entry,
                         cfgs: seq<BankConfig>, c: Customer)
    requires c.mg.cartaoTotal != c.mg.cartaoDisp && !init.claimed
    ensures var e := Settled(t, CardFormula, sel, used, init, cfgs, c);
      e.claimed ==> e.valor == Some(0.0) && e.comissao == Some(0.0)
  {
    var r := FirstClaim(t, sel, cfgs, c);
    if r.Some? {
      assert Offer(CardFormula, cfgs[r.value], c) == Some(0.0);
    }
  }

  /** govsp zeroing: once a configuration has run on this ledger, a row whose
      registration number has used the margin elsewhere carries a released
      value of 0, claimed or not; if claimed, its commission is 0 too. */
  lemma UsedElsewhereZeroed(t: Base, f: Formula, sel: Selector, used: set<Value>, init: Entry,
                            cfgs: seq<BankConfig>, c: Customer)
    requires UsedElsewhere(used, c) && AnySelected(sel, cfgs) && !init.claimed
    ensures var e := Settled(t, f, sel, used, init, cfgs, c);
      e.valor == Some(0.0) && (e.claimed ==> e.comissao == Some(0.0))
  {
  }

  /** Later configurations never move a claim. */
  lemma {:induction false} FirstClaimExtends(t: Base, sel: Selector, cfgs: seq<BankConfig>,
                                             more: seq<BankConfig>, c: Customer)
    requires FirstClaim(t, sel, cfgs, c).Some?
    ensures FirstClaim(t, sel, cfgs + more, c) == FirstClaim(t, sel, cfgs, c)
    decreases |more|
  {
    if more != [] {
      var shorter := more[..|more| - 1];
      FirstClaimExtends(t, sel, cfgs, shorter, c);
      var all := cfgs + more;
      assert all[..|all| - 1] == cfgs + shorter;
      assert FirstClaim(t, sel, all, c) == FirstClaim(t, sel, all[..|all| - 1], c);
    } else {
      assert cfgs + more == cfgs;
    }
  }

  /** A claimed row's entry is final: appending configurations leaves it as
      it is. */
  lemma ClaimIsFinal(t: Base, f: Formula, sel: Selector, used: set<Value>, init: Entry,
                     cfgs: seq<BankConfig>, more: seq<BankConfig>, c: Customer)
    requires !init.claimed && Settled(t, f, sel, used, init, cfgs, c).claimed
    ensures Settled(t, f, sel, used, init, cfgs + more, c) == Settled(t, f, sel, used, init, cfgs, c)
  {
    FirstClaimExtends(t, sel, cfgs, more, c);
  }

  /** Two tables with the same columns and the same rows, in any order. */
  ghost predicate SameRows(t1: Base, t2: Base) {
    t1.columns == t2.columns && forall c :: c in t1.rows <==> c in t2.rows
  }

  /** Such tables are empty together. */
  lemma SameRowsEmpty(t1: Base, t2: Base)
    requires SameRows(t1, t2)
    ensures t1.rows == [] <==> t2.rows == []
  {
    if t1.rows != [] {
      assert t1.rows[0] in t2.rows;
    }
    if t2.rows != [] {
      assert t2.rows[0] in t1.rows;
    }
  }

  /** Which configuration claims a row does not depend on the order of the
      table's rows. */
  lemma {:induction false} FirstClaimIgnoresOrder(t1: Base, t2: Base, sel: Selector,
                                                  cfgs: seq<BankConfig>, c: Customer)
    requires SameRows(t1, t2)
    ensures FirstClaim(t1, sel, cfgs, c) == FirstClaim(t2, sel, cfgs, c)
    decreases |cfgs|
  {
    if cfgs != [] {
      FirstClaimIgnoresOrder(t1, t2, sel, cfgs[..|cfgs| - 1], c);
      var col := cfgs[|cfgs| - 1].cond.column;
      assert Usable(t1, col) == Usable(t2, col);
    }
  }

  /** Neither does the entry it ends with. */
  lemma SettledIgnoresOrder(t1: Base, t2: Base, f: Formula, sel: Selector, used: set<Value>,
                            init: Entry, cfgs: seq<BankConfig>, c: Customer)
    requires SameRows(t1, t2)
    ensures Settled(t1, f, sel, used, init, cfgs, c) == Settled(t2, f, sel, used, init, cfgs, c)
  {
    FirstClaimIgnoresOrder(t1, t2, sel, cfgs, c);
  }
}
