/** The simulation path (`aplicar_filtro_simulacoes`): every customer row
    carries a `|`-separated list of loan simulations written
    `<n>x: <valor> (parcela: <parcela>)`; the engine keeps the simulation
    with the most instalments, reads its term, released value and
    instalment, and keeps the rows whose offer is worth the bank's
    commission. */
module Simulation {
  import opened Wrappers
  import opened Text
  import opened Numbers
  import opened Model
  import opened Rows
  import opened Finalizing
  import opened Pipeline

  /** The length of the run of characters satisfying `p` at the start of
      `s`. */
  function RunLength(s: string, p: char -> bool): (n: nat)
    ensures n <= |s| && (forall i :: 0 <= i < n ==> p(s[i])) && (n < |s| ==> !p(s[n]))
    decreases |s|
  {
    if s != [] && p(s[0]) then 1 + RunLength(s[1..], p) else 0
  }

  /** A run followed by a character outside it has exactly the run's length. */
  lemma RunLengthOf(a: string, b: string, p: char -> bool)
    requires forall c <- a :: p(c)
    requires b == [] || !p(b[0])
    ensures RunLength(a + b, p) == |a|
  {
    assert forall i :: 0 <= i < |a| ==> (a + b)[i] == a[i];
    assert b != [] ==> (a + b)[|a|] == b[0];
  }

  // ---------------------------------------------------------------------
  // The number of instalments of one simulation: the leftmost `(\d+)x:`
  // ---------------------------------------------------------------------

  /** The instalment count of the leftmost `<digits>x:` in `s`. A match can
      only start at a digit, and one that fails at the start of a run of
      digits fails at every later digit of that run, so the search resumes
      after the run. */
  function FindTerm(s: string): Option<nat>
    decreases |s|
  {
    if s == [] then None
    else if IsDigit(s[0]) then
      var n := RunLength(s, IsDigit);
      if "x:" <= s[n..] then Some(ParseNat(s[..n])) else FindTerm(s[n..])
    else FindTerm(s[1..])
  }

  /** A simulation written `<n>x:...` has `n` instalments. */
  lemma FindTermFormatted(n: nat, rest: string)
    ensures FindTerm(DigitsOf(n) + "x:" + rest) == Some(n)
  {
    var d := DigitsOf(n);
    var s := d + "x:" + rest;
    assert s == d + ("x:" + rest);
    RunLengthOf(d, "x:" + rest, IsDigit);
    assert s[..|d|] == d && s[|d|..] == "x:" + rest;
    ParseDigitsOf(n);
  }

  /** Text without digits before a simulation does not change its count. */
  lemma {:induction false} FindTermSkips(a: string, s: string)
    requires forall c <- a :: !IsDigit(c)
    ensures FindTerm(a + s) == FindTerm(s)
    decreases |a|
  {
    if a != [] {
      assert (a + s)[0] == a[0] && (a + s)[1..] == a[1..] + s;
      FindTermSkips(a[1..], s);
    } else {
      assert a + s == s;
    }
  }

  /** The instalment count an item competes with: 0 for a missing item or
      one without a count. */
  function Term(item: Option<string>): nat {
    match item
    case None => 0
    case Some(s) => FindTerm(s).GetOr(0)
  }

  // ---------------------------------------------------------------------
  // The best item of a row (`_encontrar_melhor_item`)
  // ---------------------------------------------------------------------

  /** The loop's state after `items`: the largest count so far and the
      item that first reached it. */
  function BestOf(items: seq<Option<string>>): (nat, Option<string>)
    decreases |items|
  {
    if items == [] then (0, None)
    else
      var (most, best) := BestOf(items[..|items| - 1]);
      var last := items[|items| - 1];
      if Term(last) > most then (Term(last), last) else (most, best)
  }

  /** Item `i` has the largest count, a positive one, and no earlier item
      reaches it. */
  predicate FirstMaximum(items: seq<Option<string>>, i: nat)
    requires i < |items|
  {
    && Term(items[i]) > 0
    && (forall j :: 0 <= j < |items| ==> Term(items[j]) <= Term(items[i]))
    && (forall j :: 0 <= j < i ==> Term(items[j]) < Term(items[i]))
  }

  /** The running maximum picks the first item with the strictly largest
      count, and nothing when no item has a positive count. */
  lemma {:induction false} BestOfFirstMaximum(items: seq<Option<string>>)
    ensures var (most, best) := BestOf(items);
      && (best.None? <==> forall i :: 0 <= i < |items| ==> Term(items[i]) == 0)
      && (best.None? ==> most == 0)
      && (best.Some? ==> exists i :: 0 <= i < |items| && items[i] == best
                                    && FirstMaximum(items, i) && Term(items[i]) == most)
    decreases |items|
  {
    if items != [] {
      var init, last := items[..|items| - 1], items[|items| - 1];
      BestOfFirstMaximum(init);
      assert forall j :: 0 <= j < |init| ==> items[j] == init[j];
      var (most, best) := BestOf(init);
      if Term(last) > most {
        assert FirstMaximum(items, |items| - 1);
      } else if best.Some? {
        var i :| 0 <= i < |init| && init[i] == best && FirstMaximum(init, i) && Term(init[i]) == most;
        assert items[i] == best && FirstMaximum(items, i);
      }
    }
  }

  /** `_encontrar_melhor_item`: the loop over one row's items. */
  method BestItem(items: seq<Option<string>>) returns (best: Option<string>)
    ensures best == BestOf(items).1
    ensures best.None? <==> forall i :: 0 <= i < |items| ==> Term(items[i]) == 0
    ensures best.Some? ==> exists i :: 0 <= i < |items| && items[i] == best && FirstMaximum(items, i)
  {
    var most: nat := 0;
    best := None;
    for k := 0 to |items|
      invariant (most, best) == BestOf(items[..k])
    {
      assert items[..k + 1][..k] == items[..k];
      match items[k] {
        case None =>
        case Some(s) =>
          var found := FindTerm(s);
          if found.Some? && found.value > most {
            most := found.value;
            best := items[k];
          }
      }
    }
    assert items[..|items|] == items;
    BestOfFirstMaximum(items);
  }

  // ---------------------------------------------------------------------
  // Numbers in Brazilian or US notation (`normalizar_numero`)
  // ---------------------------------------------------------------------

  /** A string with a `,` is Brazilian: its `.`s group thousands and its `,`
      is the decimal point; any other string is read as it is. */
  function NormalizeNumber(v: string): (r: Option<real>)
    ensures '-' !in v && r.Some? ==> r.value >= 0.0
  {
    var w := if ',' in v then Replace(RemoveAll(v, {'.'}), ',', '.') else v;
    assert '-' !in v ==> '-' !in w by {
      if '-' !in v && ',' in v {
        RemoveAllKeeps(v, {'.'});
      }
    }
    ParseNumber(w)
  }

  /** Deleting characters adds none. */
  lemma {:induction false} RemoveAllKeeps(s: string, cs: set<char>)
    ensures forall c <- RemoveAll(s, cs) :: c in s
    decreases |s|
  {
    if s != [] {
      RemoveAllKeeps(s[1..], cs);
    }
  }

  /** A Brazilian amount, thousands grouped by `.` anywhere and two decimals
      after the `,`, reads as its value. */
  lemma NormalizeBrazilian(g: string, n: nat, c: nat)
    requires c < 100 && RemoveAll(g, {'.'}) == DigitsOf(n)
    ensures NormalizeNumber(g + "," + TwoDigits(c)) == Some(n as real + c as real / 100.0)
  {
    var v := g + "," + TwoDigits(c);
    assert ',' in v by { assert v[|g|] == ','; }
    BrazilianDigits(g, n, c);
    ParseDecimalText(n, c);
  }

  /** The digits and the decimal point a Brazilian amount turns into. */
  lemma BrazilianDigits(g: string, n: nat, c: nat)
    requires c < 100 && RemoveAll(g, {'.'}) == DigitsOf(n)
    ensures Replace(RemoveAll(g + "," + TwoDigits(c), {'.'}), ',', '.') == DigitsOf(n) + "." + TwoDigits(c)
  {
    var t := TwoDigits(c);
    assert g + "," + t == g + ("," + t);
    RemoveAllAppend(g, "," + t, {'.'});
    RemoveAllAppend(",", t, {'.'});
    RemoveAllAbsent(t, {'.'});
    assert RemoveAll(",", {'.'}) == ",";
    assert RemoveAll(g + "," + t, {'.'}) == DigitsOf(n) + "," + t;
    ReplacePoint(DigitsOf(n), t);
  }

  /** Turning the one `,` between two digit strings into `.`. */
  lemma ReplacePoint(x: string, t: string)
    requires AllDigits(x) && AllDigits(t)
    ensures Replace(x + "," + t, ',', '.') == x + "." + t
  {
    var d := x + "," + t;
    assert forall i :: 0 <= i < |d| ==> (d[i] == ',' <==> i == |x|);
  }

  /** A US amount, two decimals after a `.`, reads as its value. */
  lemma NormalizeUS(n: nat, c: nat)
    requires c < 100
    ensures NormalizeNumber(DigitsOf(n) + "." + TwoDigits(c)) == Some(n as real + c as real / 100.0)
  {
    var v := DigitsOf(n) + "." + TwoDigits(c);
    assert forall i :: 0 <= i < |v| ==> v[i] != ',';
    ParseDecimalText(n, c);
  }

  /** The example of the docstring: "16.000,50" is 16000.50. */
  lemma NormalizeExample()
    ensures NormalizeNumber("16.000,50") == Some(16000.5)
  {
    var g := "16.000";
    assert RemoveAll(g, {'.'}) == "16000";
    assert DigitsOf(16000) == "16000" by {
      assert DigitsOf(1) == "1";
      assert DigitsOf(16) == "16";
      assert DigitsOf(160) == "160";
      assert DigitsOf(1600) == "1600";
    }
    assert TwoDigits(50) == "50";
    assert "16.000,50" == g + "," + TwoDigits(50);
    NormalizeBrazilian(g, 16000, 50);
  }

  // ---------------------------------------------------------------------
  // The three fields of the best item:
  // `(\d+)x: ([\d.,]+) \(parcela: ([\d.,]+)\)`
  // ---------------------------------------------------------------------

  /** The term, released value and instalment texts of a simulation. */
  datatype Extraction = Extraction(prazo: string, valor: string, parcela: string)

  predicate IsAmountChar(c: char) { IsDigit(c) || c == '.' || c == ',' }

  predicate IsAmount(s: string) { s != [] && forall c <- s :: IsAmountChar(c) }

  const PARCELA_OPEN := " (parcela: "

  /** `<parcela>)` at the start of `s`: the run of amount characters must
      end at the `)`. */
  function Closed(s: string): (r: Option<string>)
    ensures r.Some? ==> IsAmount(r.value)
  {
    var q := RunLength(s, IsAmountChar);
    if q > 0 && ")" <= s[q..] then Some(s[..q]) else None
  }

  /** `<valor> (parcela: <parcela>)` at the start of `s`. */
  function Amounts(s: string): (r: Option<(string, string)>)
    ensures r.Some? ==> IsAmount(r.value.0) && IsAmount(r.value.1)
  {
    var v := RunLength(s, IsAmountChar);
    var after := s[v..];
    if v > 0 && PARCELA_OPEN <= after then
      match Closed(after[|PARCELA_OPEN|..])
      case Some(q) => Some((s[..v], q))
      case None => None
    else None
  }

  /** The match that starts at the start of `s`. Each class of the pattern
      takes its whole run: the text the pattern expects next starts with a
      character outside the class, so a shorter run cannot match either. */
  function ExtractAt(s: string): (r: Option<Extraction>)
    ensures r.Some? ==> r.value.prazo != [] && AllDigits(r.value.prazo)
    ensures r.Some? ==> IsAmount(r.value.valor) && IsAmount(r.value.parcela)
  {
    var a := RunLength(s, IsDigit);
    if a > 0 && "x: " <= s[a..] then
      match Amounts(s[a + 3..])
      case Some((v, q)) => Some(Extraction(s[..a], v, q))
      case None => None
    else None
  }

  /** The leftmost match in `s` (`str.extract`); a match that fails at the
      start of a run of digits fails inside it too. */
  function Extract(s: string): (r: Option<Extraction>)
    ensures r.Some? ==> r.value.prazo != [] && AllDigits(r.value.prazo)
    ensures r.Some? ==> IsAmount(r.value.valor) && IsAmount(r.value.parcela)
    decreases |s|
  {
    if s == [] then None
    else if IsDigit(s[0]) then
      match ExtractAt(s)
      case Some(e) => Some(e)
      case None => Extract(s[RunLength(s, IsDigit)..])
    else Extract(s[1..])
  }

  lemma ClosedFormatted(q: string, rest: string)
    requires IsAmount(q)
    ensures Closed(q + ")" + rest) == Some(q)
  {
    var s := q + (")" + rest);
    assert q + ")" + rest == s;
    RunLengthOf(q, ")" + rest, IsAmountChar);
    assert s[|q|..] == ")" + rest && s[..|q|] == q;
  }

  lemma AmountsFormatted(v: string, q: string, rest: string)
    requires IsAmount(v) && IsAmount(q)
    ensures Amounts(v + PARCELA_OPEN + q + ")" + rest) == Some((v, q))
  {
    var tail := q + ")" + rest;
    var after := PARCELA_OPEN + tail;
    var s := v + after;
    assert v + PARCELA_OPEN + q + ")" + rest == s;
    RunLengthOf(v, after, IsAmountChar);
    assert s[|v|..] == after && s[..|v|] == v;
    assert after[|PARCELA_OPEN|..] == tail;
    ClosedFormatted(q, rest);
  }

  /** A simulation in the documented format gives back its three fields. */
  lemma ExtractFormatted(n: nat, v: string, q: string, rest: string)
    requires IsAmount(v) && IsAmount(q)
    ensures Extract(DigitsOf(n) + "x: " + v + PARCELA_OPEN + q + ")" + rest)
         == Some(Extraction(DigitsOf(n), v, q))
  {
    var d := DigitsOf(n);
    var s := d + ("x: " + (v + PARCELA_OPEN + q + ")" + rest));
    assert DigitsOf(n) + "x: " + v + PARCELA_OPEN + q + ")" + rest == s;
    ExtractAtFormatted(d, v, q, rest);
    assert s[0] == d[0];
  }

  /** The same, matched at the first digit. */
  lemma ExtractAtFormatted(d: string, v: string, q: string, rest: string)
    requires d != [] && AllDigits(d) && IsAmount(v) && IsAmount(q)
    ensures ExtractAt(d + ("x: " + (v + PARCELA_OPEN + q + ")" + rest))) == Some(Extraction(d, v, q))
  {
    var tail := v + PARCELA_OPEN + q + ")" + rest;
    var rest0 := "x: " + tail;
    var s := d + rest0;
    RunLengthOf(d, rest0, IsDigit);
    assert s[|d|..] == rest0 && s[..|d|] == d && s[|d| + 3..] == tail;
    AmountsFormatted(v, q, rest);
  }

  // ---------------------------------------------------------------------
  // The table (`aplicar_filtro_simulacoes`)
  // ---------------------------------------------------------------------

  /** What the simulation path reads from its parameters: the bank's
      commission rate (`comissao_banco`, 0 when absent), the minimum
      commission and whether only customers with a debt balance stay. */
  datatype SimParams = SimParams(comissaoBanco: Option<real>, comissaoMinima: real, filtrarSaldo: bool)

  const SIMULACOES := "Simulacoes"
  const MELHOR_ITEM := "Melhor_Item"
  const PRAZO := "prazo_beneficio"
  const VALOR := "valor_liberado_beneficio"
  const PARCELA := "valor_parcela_beneficio"
  const COMISSAO := "comissao_beneficio"
  const BANCO := "banco_beneficio"
  const SAQUE := "MG_Beneficio_Saque_Disponivel"
  const SALDO := "Saldo_Devedor"
  const SIM_COLUMNS := {MELHOR_ITEM, PRAZO, VALOR, PARCELA, COMISSAO, BANCO}
  const SIM_BANK := "243"

  /** The finaliser's parameters on this path: campaign Benefício, and
      neither agreement, team nor convai share. */
  const SIM_FINAL := FinalParams(Beneficio, None, None, 0)

  /** The items of a `Simulacoes` cell; a null cell is the empty text, and a
      cell that is not text has no `<n>x:` count in any case. */
  function Items(v: Value): seq<Option<string>> {
    var ps := Split(if v.Str? then v.s else "", '|');
    seq(|ps|, i requires 0 <= i < |ps| => Some(ps[i]))
  }

  /** The best item of every row. */
  function BestItems(t: GTable): (bs: seq<Option<string>>)
    ensures |bs| == |t.rows|
  {
    seq(|t.rows|, i requires 0 <= i < |t.rows| => BestOf(Items(Get(t.rows[i], SIMULACOES))).1)
  }

  /** `pd.to_numeric(v, errors='coerce')`: `None` (NaN) for a null and for
      text that is not a number. */
  function Numeric(v: Value): Option<real> {
    match v
    case Null => None
    case Str(s) => ParseNumber(s)
    case Num(x) => Some(x)
    case Int(n) => Some(n as real)
    case Flag(b) => Some(if b then 1.0 else 0.0)
  }

  predicate Positive(v: Value) { v.Num? && v.x > 0.0 }

  function Rate(sp: SimParams): real { sp.comissaoBanco.GetOr(0.0) }

  /** The bank's share of a released value, rounded to the cent. Here the
      rate is a fraction (`comissao_banco`), unlike the percentage of a bank
      configuration in `Ledger.Commission`. */
  function SimCommission(valor: real, rate: real): real { Round2(valor * rate) }

  /** The released value of a best item, if it has one. */
  function ValorOf(best: Option<string>): Option<real> {
    var ex := if best.Some? then Extract(best.value) else None;
    if ex.Some? then NormalizeNumber(ex.value.valor) else None
  }

  /** The best item and its three fields written into the row. */
  function WithOffer(r: Row, best: Option<string>): (r1: Row)
    ensures Get(r1, VALOR) == OptNum(ValorOf(best))
    ensures forall c :: c !in {MELHOR_ITEM, PRAZO, VALOR, PARCELA} ==> Get(r1, c) == Get(r, c)
  {
    var ex := if best.Some? then Extract(best.value) else None;
    r[MELHOR_ITEM := OptStr(best)]
     [PRAZO := if ex.Some? then Int(ParseNat(ex.value.prazo)) else Null]
     [VALOR := OptNum(ValorOf(best))]
     [PARCELA := OptNum(if ex.Some? then NormalizeNumber(ex.value.parcela) else None)]
  }

  /** The CPF reduced to its digits (a cell that is not text reads as null
      through pandas' string accessor) and the name title-cased. */
  function Identity(cols: set<string>, r: Row): (r1: Row)
    ensures CPF in cols ==> Get(r1, CPF).Null? || (Get(r1, CPF).Str? && AllDigits(Get(r1, CPF).s))
    ensures forall c :: c != CPF && c != NOME ==> Get(r1, c) == Get(r, c)
  {
    var cpf := Get(r, CPF);
    var r2 := if CPF in cols then r[CPF := if cpf.Str? then Str(KeepDigits(cpf.s)) else Null] else r;
    var name := Get(r2, NOME);
    if NOME in cols && name.Str? then r2[NOME := Str(Title(name.s))] else r2
  }

  /** The debt balance as a number, 0 when missing or not a number. */
  function WithSaldo(cols: set<string>, sp: SimParams, r: Row): (r1: Row)
    ensures sp.filtrarSaldo && SALDO in cols ==> Get(r1, SALDO).Num?
    ensures forall c :: c != SALDO ==> Get(r1, c) == Get(r, c)
  {
    if sp.filtrarSaldo && SALDO in cols then r[SALDO := Num(Numeric(Get(r, SALDO)).GetOr(0.0))] else r
  }

  /** A row with the columns the path writes: the best item and its three
      fields, the cleaned CPF and name, the numeric debt balance when that
      filter is on, the commission (the rounded bank share of the released
      value) and the bank. */
  function Processed(cols: set<string>, sp: SimParams, r: Row, best: Option<string>): (p: Row)
    ensures Get(p, VALOR) == OptNum(ValorOf(best))
    ensures Get(p, COMISSAO) == Num(SimCommission(ValorOf(best).GetOr(0.0), Rate(sp)))
    ensures Get(p, BANCO) == Str(SIM_BANK)
    ensures CPF in cols ==> Get(p, CPF).Null? || (Get(p, CPF).Str? && AllDigits(Get(p, CPF).s))
    ensures sp.filtrarSaldo && SALDO in cols ==> Get(p, SALDO).Num?
  {
    var r3 := WithSaldo(cols, sp, Identity(cols, WithOffer(r, best)));
    r3[COMISSAO := Num(SimCommission(ValorOf(best).GetOr(0.0), Rate(sp)))][BANCO := Str(SIM_BANK)]
  }

  /** The row filters: a positive released value, a non-negative saque
      margin (a null one counts as 0, text that is no number drops the row),
      a positive debt balance when asked, and the minimum commission. */
  predicate Kept(cols: set<string>, sp: SimParams, r: Row) {
    var saque := Get(r, SAQUE);
    && Positive(Get(r, VALOR))
    && (SAQUE in cols ==> saque.Null? || (Numeric(saque).Some? && Numeric(saque).value >= 0.0))
    && (sp.filtrarSaldo && SALDO in cols ==> Positive(Get(r, SALDO)))
    && Get(r, COMISSAO).Num? && Get(r, COMISSAO).x >= sp.comissaoMinima
  }

  /** The table handed to the finaliser, given every row's best item. */
  function SimTable(df: GTable, bests: seq<Option<string>>, sp: SimParams): (t: GTable)
    requires |bests| == |df.rows|
    ensures t.columns == df.columns + SIM_COLUMNS && |t.rows| <= |df.rows|
    // every row left is one of the input rows, processed, and passes the filters
    ensures forall r <- t.rows :: exists i :: 0 <= i < |df.rows| && r == Processed(t.columns, sp, df.rows[i], bests[i])
    ensures forall r <- t.rows :: Kept(t.columns, sp, r)
    // and every processed row that passes them is left
    ensures forall i :: 0 <= i < |df.rows| && Kept(t.columns, sp, Processed(t.columns, sp, df.rows[i], bests[i])) ==>
      Processed(t.columns, sp, df.rows[i], bests[i]) in t.rows
  {
    var cols := df.columns + SIM_COLUMNS;
    var processed := seq(|df.rows|, i requires 0 <= i < |df.rows| => Processed(cols, sp, df.rows[i], bests[i]));
    var t := GTable(cols, Where(processed, (r: Row) => Kept(cols, sp, r)));
    forall r <- t.rows ensures exists i :: 0 <= i < |df.rows| && r == Processed(cols, sp, df.rows[i], bests[i]) {
      var i :| 0 <= i < |processed| && processed[i] == r;
    }
    forall i | 0 <= i < |df.rows| && Kept(cols, sp, Processed(cols, sp, df.rows[i], bests[i]))
      ensures Processed(cols, sp, df.rows[i], bests[i]) in t.rows
    {
      assert processed[i] in processed;
    }
    t
  }

  /** What every surviving row holds: a positive released value, the
      commission as the rounded bank share of it and at least the minimum,
      bank 243, a CPF of digits only, and a positive debt balance when the
      filter is on. */
  lemma SimRowFacts(df: GTable, bests: seq<Option<string>>, sp: SimParams)
    requires |bests| == |df.rows|
    ensures forall r <- SimTable(df, bests, sp).rows ::
      && Get(r, VALOR).Num? && Get(r, VALOR).x > 0.0
      && Get(r, COMISSAO) == Num(SimCommission(Get(r, VALOR).x, Rate(sp)))
      && Get(r, COMISSAO).x >= sp.comissaoMinima
      && Get(r, BANCO) == Str(SIM_BANK)
      && (CPF in df.columns ==> Get(r, CPF).Null? || (Get(r, CPF).Str? && AllDigits(Get(r, CPF).s)))
      && (sp.filtrarSaldo && SALDO in df.columns ==> Get(r, SALDO).Num? && Get(r, SALDO).x > 0.0)
  {
    var t := SimTable(df, bests, sp);
    forall r <- t.rows
      ensures && Get(r, VALOR).Num? && Get(r, VALOR).x > 0.0
              && Get(r, COMISSAO) == Num(SimCommission(Get(r, VALOR).x, Rate(sp)))
              && Get(r, COMISSAO).x >= sp.comissaoMinima
              && Get(r, BANCO) == Str(SIM_BANK)
              && (CPF in df.columns ==> Get(r, CPF).Null? || (Get(r, CPF).Str? && AllDigits(Get(r, CPF).s)))
              && (sp.filtrarSaldo && SALDO in df.columns ==> Get(r, SALDO).Num? && Get(r, SALDO).x > 0.0)
    {
      var i :| 0 <= i < |df.rows| && r == Processed(t.columns, sp, df.rows[i], bests[i]);
      KeptRowFacts(t.columns, sp, df.rows[i], bests[i]);
    }
  }

  lemma KeptRowFacts(cols: set<string>, sp: SimParams, r: Row, best: Option<string>)
    requires Kept(cols, sp, Processed(cols, sp, r, best))
    ensures var p := Processed(cols, sp, r, best);
      && Get(p, VALOR).Num? && Get(p, VALOR).x > 0.0
      && Get(p, COMISSAO) == Num(SimCommission(Get(p, VALOR).x, Rate(sp)))
      && Get(p, COMISSAO).x >= sp.comissaoMinima
      && (sp.filtrarSaldo && SALDO in cols ==> Get(p, SALDO).x > 0.0)
  {
    var p := Processed(cols, sp, r, best);
    var v := ValorOf(best);
    assert Get(p, VALOR) == OptNum(v) && Get(p, VALOR).Num?;
  }

  /** The two ways the path stops early; in the source both report through
      a UI module that `filters.py` never imports. */
  datatype SimFailure =
    | MissingSimulations
    | NothingExtracted
    | BankIntoEmpty  // pandas refuses to add `banco_beneficio` from a scalar to a table without rows

  /** `aplicar_filtro_simulacoes`. */
  method AplicarFiltroSimulacoes(df: GTable, sp: SimParams, schema: seq<string>, rename: map<string, string>,
                                 today: string, pick: (nat, nat) -> set<nat>)
    returns (r: Result<Sheet, SimFailure>)
    requires SamplerSound(pick)
    ensures r.Failure? <==>
      || SIMULACOES !in df.columns
      || |df.rows| == 0
      || (SimTable(df, BestItems(df), sp).rows == [] && BANCO !in df.columns)
    ensures r.Failure? && SIMULACOES !in df.columns ==> r.error == MissingSimulations
    ensures r.Failure? && SIMULACOES in df.columns && |df.rows| == 0 ==> r.error == NothingExtracted
    ensures r.Failure? && SIMULACOES in df.columns && |df.rows| > 0 ==> r.error == BankIntoEmpty
    ensures r.Success? ==> Finalized(SimTable(df, BestItems(df), sp), SIM_FINAL, schema, rename, today, pick, r.value)
    ensures r.Success? ==> CAMPANHA in r.value.header && forall h <- r.value.header :: h !in WORKING_COLUMNS
  {
    if SIMULACOES !in df.columns {
      return Failure(MissingSimulations);
    }
    var bests: seq<Option<string>> := [];
    for i := 0 to |df.rows|
      invariant |bests| == i && forall j :: 0 <= j < i ==> bests[j] == BestItems(df)[j]
    {
      var best := BestItem(Items(Get(df.rows[i], SIMULACOES)));
      bests := bests + [best];
    }
    if |df.rows| == 0 {
      return Failure(NothingExtracted);
    }
    assert bests == BestItems(df);
    var t := SimTable(df, bests, sp);
    if |t.rows| == 0 && BANCO !in df.columns {
      return Failure(BankIntoEmpty);
    }
    var s := Finalize(t, SIM_FINAL, schema, rename, today, pick);
    LayoutHeader(schema, rename);
    return Success(s);
  }
}
