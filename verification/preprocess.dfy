/** The cleaning and filtering every campaign starts with
    (`_preprocessar_base`). */
module Preprocessing {
  import opened Wrappers
  import opened Text
  import opened Model
  import opened Rows

  /** The punctuation removed from CPF numbers. */
  const CPF_PUNCTUATION := {'.', '-'}

  /** `Nome_Cliente` title-cased where it is text. */
  function TitleName(c: Customer): Customer {
    var v := Get(c.cells, NOME);
    if v.Str? then c.(cells := c.cells[NOME := Str(Title(v.s))]) else c
  }

  /** `CPF` without dots and dashes; a cell that is not text reads as null
      through pandas' string accessor. */
  function CleanCpf(c: Customer): Customer {
    var v := Get(c.cells, CPF);
    c.(cells := c.cells[CPF := if v.Str? then Str(RemoveAll(v.s, CPF_PUNCTUATION)) else Null])
  }

  /** The row after the column clean-ups that apply to table columns `cols`. */
  function Cleaned(cols: set<string>, c: Customer): (r: Customer)
    ensures r.birth == c.birth && r.mg == c.mg
    ensures Get(r.cells, LOTACAO) == Get(c.cells, LOTACAO) && Get(r.cells, VINCULO) == Get(c.cells, VINCULO)
    ensures NOME in cols && Get(c.cells, NOME).Str? ==> Get(r.cells, NOME) == Str(Title(Get(c.cells, NOME).s))
    ensures CPF in cols && Get(c.cells, CPF).Str? ==>
      Get(r.cells, CPF) == Str(RemoveAll(Get(c.cells, CPF).s, CPF_PUNCTUATION))
  {
    var named := if NOME in cols then TitleName(c) else c;
    if CPF in cols then CleanCpf(named) else named
  }

  /** `isin` on a list of names: a text cell equal to one of them. */
  predicate Listed(v: Value, names: seq<string>) {
    v.Str? && v.s in names
  }

  /** Not in an excluded lotação or vínculo. */
  predicate NotExcluded(p: Params, c: Customer) {
    !Listed(Get(c.cells, LOTACAO), p.selLotacao) && !Listed(Get(c.cells, VINCULO), p.selVinculos)
  }

  /** Born on or after the cutoff; a missing or unparseable date fails. */
  predicate BornOnOrAfter(cutoff: Date, c: Customer) {
    c.birth.Born? && OnOrAfter(c.birth.date, cutoff)
  }

  /** The age filter runs when there is a cutoff and the birth-date column
      exists and is not entirely null among the rows the exclusions keep. */
  predicate AgeFilterRuns(base: Base, p: Params) {
    && p.dataLimite.Some?
    && NASCIMENTO in base.columns
    && exists c <- base.rows :: NotExcluded(p, c) && c.birth != Missing
  }

  /** The input rows, cleaned, in order. */
  function CleanedRows(base: Base): (r: seq<Customer>)
    ensures |r| == |base.rows|
    ensures forall i :: 0 <= i < |r| ==> r[i] == Cleaned(base.columns, base.rows[i])
  {
    seq(|base.rows|, i requires 0 <= i < |base.rows| => Cleaned(base.columns, base.rows[i]))
  }

  /** What survives the filters, stated on the cleaned rows. */
  predicate Survives(base: Base, p: Params, c: Customer) {
    NotExcluded(p, c) && (AgeFilterRuns(base, p) ==> BornOnOrAfter(p.dataLimite.value, c))
  }

  /** The table preprocessing leaves: the cleaned rows that survive, in
      input order. */
  function Survivors(base: Base, p: Params): (t: Base)
    ensures t.columns == base.columns
    ensures |t.rows| <= |base.rows|
    ensures forall c :: c in t.rows <==> c in CleanedRows(base) && Survives(base, p, c)
  {
    Base(base.columns, Where(CleanedRows(base), (c: Customer) => Survives(base, p, c)))
  }

  /** Cleaning touches neither the filtered columns nor the birth date. */
  lemma CleanedKeepsFilters(base: Base, p: Params, i: nat)
    requires i < |base.rows|
    ensures var c0 := base.rows[i];
      var c := CleanedRows(base)[i];
      && (NotExcluded(p, c) <==> NotExcluded(p, c0))
      && c.birth == c0.birth
  {
  }

  /** Cleaned text cells are clean. */
  lemma CleanedCells(cols: set<string>, c0: Customer)
    ensures var c := Cleaned(cols, c0);
      && (CPF in cols && Get(c.cells, CPF).Str? ==> forall ch <- Get(c.cells, CPF).s :: ch !in CPF_PUNCTUATION)
      && (NOME in cols && Get(c.cells, NOME).Str? ==> Title(Get(c.cells, NOME).s) == Get(c.cells, NOME).s)
  {
    var c := Cleaned(cols, c0);
    if NOME in cols && Get(c.cells, NOME).Str? {
      assert Get(c0.cells, NOME).Str?;
      TitleIdempotent(Get(c0.cells, NOME).s);
    }
    if CPF in cols && Get(c.cells, CPF).Str? {
      assert Get(c0.cells, CPF).Str?;
    }
  }

  /** The birth-date column is not entirely null among the rows the
      exclusions keep. */
  lemma SomeBirthDate(base: Base, p: Params, rows: seq<Customer>)
    requires forall c :: c in rows <==> c in CleanedRows(base) && NotExcluded(p, c)
    ensures (exists c <- rows :: c.birth != Missing) <==>
            exists c0 <- base.rows :: NotExcluded(p, c0) && c0.birth != Missing
  {
    var cleaned := CleanedRows(base);
    if exists c <- rows :: c.birth != Missing {
      var c :| c in rows && c.birth != Missing;
      var i :| 0 <= i < |cleaned| && cleaned[i] == c;
      CleanedKeepsFilters(base, p, i);
      assert base.rows[i] in base.rows;
    }
    if exists c0 <- base.rows :: NotExcluded(p, c0) && c0.birth != Missing {
      var c0 :| c0 in base.rows && NotExcluded(p, c0) && c0.birth != Missing;
      var i :| 0 <= i < |base.rows| && base.rows[i] == c0;
      CleanedKeepsFilters(base, p, i);
      assert cleaned[i] in rows;
    }
  }

  method Preprocess(base: Base, p: Params) returns (out: Base)
    // the survivors, in input order and with every copy
    ensures out == Survivors(base, p)
    ensures out.columns == base.columns
    ensures |out.rows| <= |base.rows|
    // every row comes from an input row, cleaned
    // and the rows kept are exactly the cleaned rows that pass the exclusions
    // and the age cutoff
    ensures forall c :: c in out.rows <==> c in CleanedRows(base) && Survives(base, p, c)
    // cleaned CPFs hold no punctuation; names are title-cased
    ensures CPF in base.columns ==> forall c <- out.rows ::
      Get(c.cells, CPF).Str? ==> forall ch <- Get(c.cells, CPF).s :: ch !in CPF_PUNCTUATION
    ensures NOME in base.columns ==> forall c <- out.rows ::
      Get(c.cells, NOME).Str? ==> Title(Get(c.cells, NOME).s) == Get(c.cells, NOME).s
  {
    var rows := CleanRows(base);
    CleanedRowsClean(base);
    rows := Exclude(rows, p);
    var anyBirth := exists c <- rows :: c.birth != Missing;
    SomeBirthDate(base, p, rows);
    ghost var survives := (c: Customer) => Survives(base, p, c);
    if NASCIMENTO in base.columns && anyBirth && p.dataLimite.Some? {
      var born := (c: Customer) => BornOnOrAfter(p.dataLimite.value, c);
      rows := Where(rows, born);
      WhereThen(CleanedRows(base), (c: Customer) => NotExcluded(p, c), born, survives);
    } else {
      WhereSame(CleanedRows(base), (c: Customer) => NotExcluded(p, c), survives);
    }
    out := Base(base.columns, rows);
  }

  /** The lotação exclusion, then the vínculo exclusion. */
  method Exclude(rows: seq<Customer>, p: Params) returns (kept: seq<Customer>)
    ensures kept == Where(rows, (c: Customer) => NotExcluded(p, c))
    ensures |kept| <= |rows|
    ensures forall c :: c in kept <==> c in rows && NotExcluded(p, c)
  {
    var lotacao := (c: Customer) => !Listed(Get(c.cells, LOTACAO), p.selLotacao);
    var vinculo := (c: Customer) => !Listed(Get(c.cells, VINCULO), p.selVinculos);
    kept := rows;
    if |p.selLotacao| > 0 {
      kept := Where(kept, lotacao);
    }
    if |p.selVinculos| > 0 {
      kept := Where(kept, vinculo);
    }
    if |p.selLotacao| > 0 && |p.selVinculos| > 0 {
      WhereThen(rows, lotacao, vinculo, (c: Customer) => NotExcluded(p, c));
    } else if |p.selLotacao| > 0 {
      WhereSame(rows, lotacao, (c: Customer) => NotExcluded(p, c));
    } else if |p.selVinculos| > 0 {
      WhereSame(rows, vinculo, (c: Customer) => NotExcluded(p, c));
    } else {
      WhereAll(rows, (c: Customer) => NotExcluded(p, c));
    }
  }

  /** The name, then the CPF, rewritten column-wide. */
  method CleanRows(base: Base) returns (rows: seq<Customer>)
    ensures rows == CleanedRows(base)
  {
    rows := base.rows;
    if NOME in base.columns {
      rows := seq(|rows|, i requires 0 <= i < |rows| => TitleName(rows[i]));
    }
    if CPF in base.columns {
      rows := seq(|rows|, i requires 0 <= i < |rows| => CleanCpf(rows[i]));
    }
  }

  /** Every cleaned row is clean. */
  lemma CleanedRowsClean(base: Base)
    ensures forall c <- CleanedRows(base) ::
      && (CPF in base.columns && Get(c.cells, CPF).Str? ==> forall ch <- Get(c.cells, CPF).s :: ch !in CPF_PUNCTUATION)
      && (NOME in base.columns && Get(c.cells, NOME).Str? ==> Title(Get(c.cells, NOME).s) == Get(c.cells, NOME).s)
  {
    var cleaned := CleanedRows(base);
    forall c <- cleaned
      ensures && (CPF in base.columns && Get(c.cells, CPF).Str? ==> forall ch <- Get(c.cells, CPF).s :: ch !in CPF_PUNCTUATION)
              && (NOME in base.columns && Get(c.cells, NOME).Str? ==> Title(Get(c.cells, NOME).s) == Get(c.cells, NOME).s)
    {
      var i :| 0 <= i < |cleaned| && cleaned[i] == c;
      CleanedCells(base.columns, base.rows[i]);
    }
  }
}
