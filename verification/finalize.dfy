/** The finishing pass every campaign goes through (`_finalizar_base`):
    missing output columns added as empty text, one row per CPF, the output
    columns in schema order under their final names, the campaign label,
    the share relabelled for the convai team, and no working column. The
    schema (`ORDEM_COLUNAS_FINAL`) and the renaming (`MAPEAMENTO_COLUNAS_FINAL`)
    are parameters. */
module Finalizing {
  import opened Wrappers
  import opened Model
  import opened Rows
  import opened Dedup

  type Row = map<string, Value>

  const CAMPANHA := "Campanha"

  /** Flags and totals the calculators leave behind. */
  const WORKING_COLUMNS := ["tratado", "tratado_beneficio", "tratado_cartao",
                            "comissao_total", "margem_beneficio_usado", "margem_cartao_usado"]

  /** The parameters the finaliser reads: campaign, agreement, team and the
      convai share in percent. */
  datatype FinalParams = FinalParams(campaign: Campaign, convenio: Option<string>,
                                     equipes: Option<string>, convaiPercent: int)

  function Slug(c: Campaign): string {
    match c
    case Novo => "novo"
    case Beneficio => "benef"
    case Cartao => "cartao"
    case BeneficioCartao => "benef-cartao"
    case OtherCampaign => "campanha"
  }

  /** `{convenio}_{date}_{campaign}_{team}`. */
  function Label(fp: FinalParams, today: string, team: string): string {
    fp.convenio.GetOr("geral") + "_" + today + "_" + Slug(fp.campaign) + "_" + team
  }

  function TeamLabel(fp: FinalParams, today: string): string {
    Label(fp, today, fp.equipes.GetOr("geral"))
  }

  function ConvaiLabel(fp: FinalParams, today: string): string {
    Label(fp, today, "convai")
  }

  /** The two labels differ exactly when the team is not "convai". */
  lemma LabelsDiffer(fp: FinalParams, today: string)
    ensures TeamLabel(fp, today) == ConvaiLabel(fp, today) <==> fp.equipes.GetOr("geral") == "convai"
  {
    var prefix := fp.convenio.GetOr("geral") + "_" + today + "_" + Slug(fp.campaign) + "_";
    var team := fp.equipes.GetOr("geral");
    assert TeamLabel(fp, today) == prefix + team;
    assert ConvaiLabel(fp, today) == prefix + "convai";
    if prefix + team == prefix + "convai" {
      assert team == (prefix + team)[|prefix|..];
    }
  }

  /** `int(percent / 100 * n)` rows go to convai when the share and the
      table are non-empty. */
  function ConvaiCount(percent: int, n: nat): (k: nat)
    ensures percent <= 100 ==> k <= n
    ensures percent <= 0 || n == 0 ==> k == 0
  {
    if percent > 0 && n > 0 then (percent * n) / 100 else 0
  }

  /** A sampler returns `n` distinct row positions below `len`. */
  ghost predicate SamplerSound(pick: (nat, nat) -> set<nat>) {
    forall n: nat, len: nat :: n <= len ==> |pick(n, len)| == n && forall i <- pick(n, len) :: i < len
  }

  /** The rows relabelled for convai. */
  function Picked(pick: (nat, nat) -> set<nat>, percent: int, len: nat): set<nat> {
    var n := ConvaiCount(percent, len);
    if n > 0 then pick(n, len) else {}
  }

  // ------------------------------------------------------------ columns

  /** The schema columns the table lacks, added as empty text in order. */
  function FillColumns(cols: set<string>, rows: seq<Row>, schema: seq<string>): (r: (set<string>, seq<Row>))
    ensures r.0 == cols + set c | c in schema
    ensures |r.1| == |rows|
    decreases |schema|
  {
    if schema == [] then (cols, rows)
    else if schema[0] in cols then FillColumns(cols, rows, schema[1..])
    else
      var c := schema[0];
      FillColumns(cols + {c}, seq(|rows|, i requires 0 <= i < |rows| => rows[i][c := Str("")]), schema[1..])
  }

  /** Filling sets every added column to "" and touches nothing else. */
  lemma {:induction false} FillColumnsCells(cols: set<string>, rows: seq<Row>, schema: seq<string>, i: nat, c: string)
    requires i < |rows|
    ensures Get(FillColumns(cols, rows, schema).1[i], c) ==
      if c !in cols && c in schema then Str("") else Get(rows[i], c)
    decreases |schema|
  {
    if schema != [] {
      var c0 := schema[0];
      assert c in schema <==> c == c0 || c in schema[1..];
      if c0 in cols {
        FillColumnsCells(cols, rows, schema[1..], i, c);
      } else {
        var next := seq(|rows|, j requires 0 <= j < |rows| => rows[j][c0 := Str("")]);
        FillColumnsCells(cols + {c0}, next, schema[1..], i, c);
      }
    }
  }

  function CpfOf(r: Row): Value { Get(r, CPF) }

  /** The rows the output keeps: filled, then the first row of every CPF
      when the table has a CPF column. */
  function KeptRows(t: GTable, schema: seq<string>): seq<Row> {
    var filled := FillColumns(t.columns, t.rows, schema);
    if CPF in filled.0 then FirstOccurrences(filled.1, CpfOf) else filled.1
  }

  // ------------------------------------------------------------- layout

  /** Where an output column takes its cells from. */
  datatype Source = FromColumn(col: string) | CampaignLabel

  function Rename(rename: map<string, string>, col: string): string {
    if col in rename then rename[col] else col
  }

  predicate NotWorking(e: (string, Source)) { e.0 !in WORKING_COLUMNS }

  /** The schema under its final names; a column renamed to the campaign
      column takes the label. */
  function Named(schema: seq<string>, rename: map<string, string>): (l: seq<(string, Source)>)
    ensures forall c <- schema :: exists e <- l :: e.0 == Rename(rename, c)
    ensures forall e <- l :: e.1.CampaignLabel? <==> e.0 == CAMPANHA
    ensures forall e <- l :: e.1.FromColumn? ==> e.1.col in schema && e.0 == Rename(rename, e.1.col)
  {
    var l := seq(|schema|, k requires 0 <= k < |schema| =>
      var name := Rename(rename, schema[k]);
      (name, if name == CAMPANHA then CampaignLabel else FromColumn(schema[k])));
    assert forall c <- schema :: exists e <- l :: e.0 == Rename(rename, c) by {
      forall c <- schema ensures exists e <- l :: e.0 == Rename(rename, c) {
        var k :| 0 <= k < |schema| && schema[k] == c;
        assert l[k].0 == Rename(rename, c);
      }
    }
    l
  }

  /** The columns with the campaign column appended when missing. */
  function Stamped(named: seq<(string, Source)>): (l: seq<(string, Source)>)
    ensures exists e <- l :: e.0 == CAMPANHA
    ensures forall e <- l :: e in named || e == (CAMPANHA, CampaignLabel)
    ensures forall e <- named :: e in l
  {
    if exists e <- named :: e.0 == CAMPANHA then named else named + [(CAMPANHA, CampaignLabel)]
  }

  /** The output columns: the schema in order under the final names, the
      campaign column (overwritten if the schema has one, appended if not),
      without the working columns. */
  function Layout(schema: seq<string>, rename: map<string, string>): (l: seq<(string, Source)>)
    ensures forall e <- l :: e.0 !in WORKING_COLUMNS
    ensures exists e <- l :: e.0 == CAMPANHA
    ensures forall c <- schema :: Rename(rename, c) !in WORKING_COLUMNS ==>
      exists e <- l :: e.0 == Rename(rename, c)
    ensures forall e <- l :: e.1.CampaignLabel? <==> e.0 == CAMPANHA
    ensures forall e <- l :: e.1.FromColumn? ==> e.1.col in schema && e.0 == Rename(rename, e.1.col)
  {
    var named := Named(schema, rename);
    var stamped := Stamped(named);
    var l := Where(stamped, NotWorking);
    assert exists e <- l :: e.0 == CAMPANHA by {
      var e :| e in stamped && e.0 == CAMPANHA;
      assert NotWorking(e);
    }
    assert forall c <- schema :: Rename(rename, c) !in WORKING_COLUMNS ==>
      exists e <- l :: e.0 == Rename(rename, c) by {
      forall c <- schema | Rename(rename, c) !in WORKING_COLUMNS
        ensures exists e <- l :: e.0 == Rename(rename, c)
      {
        var e :| e in named && e.0 == Rename(rename, c);
        assert e in stamped && NotWorking(e);
      }
    }
    l
  }

  /** The cell of output column `src` for a row with campaign label `tag`. */
  function Cell(r: Row, src: Source, tag: string): Value {
    match src
    case FromColumn(c) => Get(r, c)
    case CampaignLabel => Str(tag)
  }

  /** `s` is the finished table of `t`: the header is the layout's names, and
      there is one row per kept row with each cell taken from its source,
      the picked rows carrying the convai label and the others the team
      label. */
  predicate Finalized(t: GTable, fp: FinalParams, schema: seq<string>, rename: map<string, string>,
                      today: string, pick: (nat, nat) -> set<nat>, s: Sheet)
  {
    var l := Layout(schema, rename);
    var kept := KeptRows(t, schema);
    var picked := Picked(pick, fp.convaiPercent, |kept|);
    && s.header == Header(l)
    && |s.rows| == |kept|
    && (forall i :: 0 <= i < |kept| ==> |s.rows[i]| == |l|)
    && forall i, k :: 0 <= i < |kept| && 0 <= k < |l| ==>
         s.rows[i][k] == Cell(kept[i], l[k].1,
                              if i in picked then ConvaiLabel(fp, today) else TeamLabel(fp, today))
  }

  method Finalize(t: GTable, fp: FinalParams, schema: seq<string>, rename: map<string, string>,
                  today: string, pick: (nat, nat) -> set<nat>) returns (s: Sheet)
    requires fp.convaiPercent <= 100 && SamplerSound(pick)
    ensures Finalized(t, fp, schema, rename, today, pick, s)
    // the convai share
    ensures var n := |KeptRows(t, schema)|;
      |Picked(pick, fp.convaiPercent, n)| == ConvaiCount(fp.convaiPercent, n)
      && forall i <- Picked(pick, fp.convaiPercent, n) :: i < n
  {
    var cols, rows := AddMissingColumns(t.columns, t.rows, schema);
    if CPF in cols {
      rows := FirstOccurrences(rows, CpfOf);
    }
    assert rows == KeptRows(t, schema);
    PickedShare(pick, fp.convaiPercent, |rows|);
    var layout := Layout(schema, rename);
    var picked := Picked(pick, fp.convaiPercent, |rows|);
    var team, convai := TeamLabel(fp, today), ConvaiLabel(fp, today);
    s := Sheet(
      Header(layout),
      seq(|rows|, i requires 0 <= i < |rows| =>
        seq(|layout|, k requires 0 <= k < |layout| =>
          Cell(rows[i], layout[k].1, if i in picked then convai else team))));
  }

  /** The loop that adds each missing schema column as empty text. */
  method AddMissingColumns(cols0: set<string>, rows0: seq<Row>, schema: seq<string>)
    returns (cols: set<string>, rows: seq<Row>)
    ensures (cols, rows) == FillColumns(cols0, rows0, schema)
  {
    cols, rows := cols0, rows0;
    for j := 0 to |schema|
      invariant FillColumns(cols, rows, schema[j..]) == FillColumns(cols0, rows0, schema)
    {
      assert schema[j..][1..] == schema[j + 1..];
      if schema[j] !in cols {
        cols := cols + {schema[j]};
        var c := schema[j];
        rows := seq(|rows|, i requires 0 <= i < |rows| => rows[i][c := Str("")]);
      }
    }
    assert schema[|schema|..] == [];
  }

  /** A sound sampler picks exactly the convai share, all within the table. */
  lemma PickedShare(pick: (nat, nat) -> set<nat>, percent: int, n: nat)
    requires percent <= 100 && SamplerSound(pick)
    ensures |Picked(pick, percent, n)| == ConvaiCount(percent, n)
    ensures forall i <- Picked(pick, percent, n) :: i < n
  {
  }

  /** Finalising never adds rows. */
  lemma KeptRowsBound(t: GTable, schema: seq<string>)
    ensures |KeptRows(t, schema)| <= |t.rows|
  {
  }

  /** The header names of a layout, in order. */
  function Header(l: seq<(string, Source)>): (h: seq<string>)
    ensures |h| == |l| && forall k :: 0 <= k < |l| ==> h[k] == l[k].0
  {
    seq(|l|, k requires 0 <= k < |l| => l[k].0)
  }

  /** The finished header has the campaign column and no working column. */
  lemma LayoutHeader(schema: seq<string>, rename: map<string, string>)
    ensures var h := Header(Layout(schema, rename));
      CAMPANHA in h && forall n <- h :: n !in WORKING_COLUMNS
  {
    var l := Layout(schema, rename);
    var h := Header(l);
    var e :| e in l && e.0 == CAMPANHA;
    var k :| 0 <= k < |l| && l[k] == e;
    assert h[k] == CAMPANHA;
    forall n <- h ensures n !in WORKING_COLUMNS {
      var k :| 0 <= k < |h| && h[k] == n;
      assert l[k] in l;
    }
  }

  /** One row per CPF: when the table has a CPF column, no two kept rows
      share a CPF, every CPF of the filled table survives, and each kept
      row is the first of its CPF. */
  lemma OneRowPerCpf(t: GTable, schema: seq<string>)
    requires CPF in t.columns || CPF in schema
    ensures var filled := FillColumns(t.columns, t.rows, schema).1;
      var kept := KeptRows(t, schema);
      && DistinctKeys(kept, CpfOf)
      && (forall r <- filled :: CpfOf(r) in Keys(kept, CpfOf))
      && (forall i :: 0 <= i < |filled| && FirstAt(filled, CpfOf, i) ==> filled[i] in kept)
  {
    FirstOccurrencesExact(FillColumns(t.columns, t.rows, schema).1, CpfOf);
  }
}
