/** The two pieces of logic of the data layer: merging the restriction rows
    of an agreement into three lists without repeats (`buscar_restricoes`),
    and choosing the separator of an uploaded simulation file from its first
    line. The database client and the query are outside the model: the rows
    the query returns are an input. */
module DataHandler {
  import opened Wrappers
  import opened Text
  import opened Dedup

  // ---------------------------------------------------------------------
  // Product names
  // ---------------------------------------------------------------------

  /** The campaign names with a fixed slug. */
  const CAMPAIGN_NAMES := {"Novo", "Benefício", "Cartão", "Benefício & Cartão"}

  /** The product name stored in the database for a campaign name: the four
      campaigns have fixed slugs, and any other name is lower-cased. */
  function ProductSlug(produto: string): (slug: string)
    ensures produto == "Novo" ==> slug == "novo"
    ensures produto == "Benefício" ==> slug == "beneficio"
    ensures produto == "Cartão" ==> slug == "cartao"
    ensures produto == "Benefício & Cartão" ==> slug == "benef-cartao"
    ensures produto !in CAMPAIGN_NAMES ==> slug == LowerStr(produto)
    ensures forall c <- slug :: !IsUpper(c)
  {
    if produto == "Novo" then "novo"
    else if produto == "Benefício" then "beneficio"
    else if produto == "Cartão" then "cartao"
    else if produto == "Benefício & Cartão" then "benef-cartao"
    else
      assert forall i :: 0 <= i < |produto| ==> !IsUpper(LowerStr(produto)[i]) by {
        forall i | 0 <= i < |produto| ensures !IsUpper(Lower(produto[i])) {
          CaseFacts(produto[i]);
        }
      }
      LowerStr(produto)
  }

  /** Lower-casing twice is lower-casing once. */
  lemma LowerStrIdempotent(s: string)
    ensures LowerStr(LowerStr(s)) == LowerStr(s)
  {
    forall i | 0 <= i < |s| ensures Lower(Lower(s[i])) == Lower(s[i]) {
      CaseFacts(s[i]);
    }
  }

  /** A slug maps to itself: no slug is a campaign name, and lower-case text
      stays as it is. */
  lemma ProductSlugIdempotent(produto: string)
    ensures ProductSlug(ProductSlug(produto)) == ProductSlug(produto)
  {
    var slug := ProductSlug(produto);
    assert slug != [] ==> !IsUpper(slug[0]);
    if slug == "novo" || slug == "beneficio" || slug == "cartao" || slug == "benef-cartao" {
      assert LowerStr(slug) == slug;
    } else {
      LowerStrIdempotent(produto);
    }
  }

  /** The four campaigns have four different slugs. */
  lemma ProductSlugsDistinct()
    ensures |{ProductSlug("Novo"), ProductSlug("Benefício"), ProductSlug("Cartão"),
              ProductSlug("Benefício & Cartão")}| == 4
  {
    assert "novo" != "beneficio" && "novo" != "cartao" && "novo" != "benef-cartao";
    assert "beneficio" != "cartao" && "beneficio" != "benef-cartao" && "cartao" != "benef-cartao";
  }

  // ---------------------------------------------------------------------
  // Merging the restriction rows
  // ---------------------------------------------------------------------

  /** One row of the query result: the kind of restriction and the value it
      excludes. */
  datatype QueryRow = QueryRow(tipo: string, valor: string)

  /** The three lists of excluded values. */
  datatype Restricoes = Restricoes(lotacao: seq<string>, secretaria: seq<string>, vinculo: seq<string>)

  const NoRestrictions := Restricoes([], [], [])

  /** The kinds the merge knows. */
  const KINDS := {"lotacao", "secretaria", "vinculo"}

  /** The values of the rows of kind `tipo`, in order. */
  function ValuesOf(rows: seq<QueryRow>, tipo: string): (vs: seq<string>)
    ensures |vs| <= |rows|
    ensures forall v <- vs :: QueryRow(tipo, v) in rows
    ensures forall r <- rows :: r.tipo == tipo ==> r.valor in vs
    decreases |rows|
  {
    if rows == [] then []
    else
      var init, last := rows[..|rows| - 1], rows[|rows| - 1];
      assert rows == init + [last];
      ValuesOf(init, tipo) + (if last.tipo == tipo then [last.valor] else [])
  }

  function Id(v: string): string { v }

  /** The values of kind `tipo`, each once, in order of first occurrence. */
  function Merged(rows: seq<QueryRow>, tipo: string): seq<string> {
    FirstOccurrences(ValuesOf(rows, tipo), Id)
  }

  /** The result of the merge over `rows`. */
  function Merge(rows: seq<QueryRow>): Restricoes {
    Restricoes(Merged(rows, "lotacao"), Merged(rows, "secretaria"), Merged(rows, "vinculo"))
  }

  /** `Keys` under the identity is the sequence itself. */
  lemma KeysId(xs: seq<string>)
    ensures Keys(xs, Id) == xs
  {
  }

  /** One more row appends its value to its kind's list unless the list has
      it already; every other list is unchanged. */
  lemma MergedStep(rows: seq<QueryRow>, row: QueryRow, tipo: string)
    ensures Merged(rows + [row], tipo) ==
      if row.tipo == tipo && row.valor !in Merged(rows, tipo) then Merged(rows, tipo) + [row.valor]
      else Merged(rows, tipo)
  {
    var all := rows + [row];
    assert all[..|all| - 1] == rows;
    var vs := ValuesOf(rows, tipo);
    if row.tipo == tipo {
      var grown := vs + [row.valor];
      assert ValuesOf(all, tipo) == grown;
      assert grown[..|grown| - 1] == vs;
      KeysId(FirstOccurrences(vs, Id));
    } else {
      assert ValuesOf(all, tipo) == vs;
    }
  }

  /** `buscar_restricoes` after the query: `connected` says whether a client
      exists, and `query` is the rows the query returned, or `None` when it
      raised. A missing client, agreement or product, or a failed query,
      gives three empty lists. */
  method BuscarRestricoes(connected: bool, convenio: string, produto: string,
                          query: Option<seq<QueryRow>>) returns (r: Restricoes)
    ensures !connected || convenio == "" || produto == "" || query.None? ==> r == NoRestrictions
    ensures connected && convenio != "" && produto != "" && query.Some? ==> r == Merge(query.value)
  {
    r := NoRestrictions;
    if !connected || convenio == "" || produto == "" || query.None? {
      return;
    }
    var rows := query.value;
    assert rows[..0] == [];
    for k := 0 to |rows|
      invariant r == Merge(rows[..k])
    {
      var item := rows[k];
      assert rows[..k + 1] == rows[..k] + [item];
      MergedStep(rows[..k], item, "lotacao");
      MergedStep(rows[..k], item, "secretaria");
      MergedStep(rows[..k], item, "vinculo");
      if item.tipo == "lotacao" {
        if item.valor !in r.lotacao {
          r := r.(lotacao := r.lotacao + [item.valor]);
        }
      } else if item.tipo == "secretaria" {
        if item.valor !in r.secretaria {
          r := r.(secretaria := r.secretaria + [item.valor]);
        }
      } else if item.tipo == "vinculo" {
        if item.valor !in r.vinculo {
          r := r.(vinculo := r.vinculo + [item.valor]);
        }
      }
    }
    assert rows[..|rows|] == rows;
  }

  /** Each list has no value twice and holds exactly the values of its kind
      among the rows. */
  lemma MergedFacts(rows: seq<QueryRow>, tipo: string)
    ensures var l := Merged(rows, tipo);
      && (forall i, j :: 0 <= i < j < |l| ==> l[i] != l[j])
      && (forall v <- l :: QueryRow(tipo, v) in rows)
      && (forall r <- rows :: r.tipo == tipo ==> r.valor in l)
  {
    var l := Merged(rows, tipo);
    KeysId(l);
    forall i, j | 0 <= i < j < |l| ensures l[i] != l[j] {
      assert Id(l[i]) != Id(l[j]);
    }
  }

  /** A row of a kind the merge does not know changes nothing. */
  lemma UnknownKindIgnored(rows: seq<QueryRow>, row: QueryRow)
    requires row.tipo !in KINDS
    ensures Merge(rows + [row]) == Merge(rows)
  {
    MergedStep(rows, row, "lotacao");
    MergedStep(rows, row, "secretaria");
    MergedStep(rows, row, "vinculo");
  }

  // ---------------------------------------------------------------------
  // The separator of an uploaded simulation file
  // ---------------------------------------------------------------------

  predicate IsLineBreak(c: char) { c == '\n' || c == '\r' }

  /** The first line of a file (`splitlines()[0]`), `None` for an empty
      file, where taking the first line fails. */
  function FirstLine(content: string): (l: Option<string>)
    ensures l.Some? <==> content != []
    ensures l.Some? ==> l.value <= content && forall c <- l.value :: !IsLineBreak(c)
    ensures l.Some? && |l.value| < |content| ==> IsLineBreak(content[|l.value|])
  {
    if content == [] then None
    else
      var n := LineLength(content);
      Some(content[..n])
  }

  /** The length of the run of characters before the first line break. */
  function LineLength(s: string): (n: nat)
    ensures n <= |s| && (forall i :: 0 <= i < n ==> !IsLineBreak(s[i])) && (n < |s| ==> IsLineBreak(s[n]))
    decreases |s|
  {
    if s != [] && !IsLineBreak(s[0]) then 1 + LineLength(s[1..]) else 0
  }

  /** `;` when the first line has strictly more `;` than `,`, otherwise `,`;
      `None` for an empty file, which is skipped. */
  function Separator(content: string): (sep: Option<char>)
    ensures sep.Some? <==> content != []
    ensures sep.Some? ==> sep.value == ';' || sep.value == ','
    ensures sep.Some? ==>
      (sep.value == ';' <==> Count(FirstLine(content).value, ';') > Count(FirstLine(content).value, ','))
  {
    match FirstLine(content)
    case None => None
    case Some(l) => Some(if Count(l, ';') > Count(l, ',') then ';' else ',')
  }

  /** A join of pieces without the separator holds one separator fewer than
      pieces. */
  lemma {:induction false} CountJoin(ps: seq<string>, sep: char, c: char)
    requires |ps| >= 1 && forall p <- ps :: c !in p
    ensures Count(Join(ps, sep), c) == if c == sep then |ps| - 1 else 0
    decreases |ps|
  {
    CountAbsent(ps[0], c);
    if |ps| > 1 {
      CountJoin(ps[1..], sep, c);
      CountAppend(ps[0], [sep], c);
      CountAppend(ps[0] + [sep], Join(ps[1..], sep), c);
      assert Count([sep], c) == if c == sep then 1 else 0 by {
        assert [sep][..0] == [];
      }
    }
  }

  /** A file whose header is two or more column names joined by `;` or by
      `,` (names holding neither) is read with that separator. */
  lemma SeparatorOfHeader(names: seq<string>, sep: char, rest: string)
    requires sep == ';' || sep == ','
    requires |names| >= 2
    requires forall p <- names :: ';' !in p && ',' !in p && '\n' !in p && '\r' !in p
    ensures Separator(Join(names, sep) + "\n" + rest) == Some(sep)
  {
    var h := Join(names, sep);
    JoinLineFree(names, sep);
    var content := h + ("\n" + rest);
    assert h + "\n" + rest == content;
    assert FirstLine(content) == Some(h) by {
      assert content[|h|] == '\n';
      assert forall i :: 0 <= i < |h| ==> content[i] == h[i];
      assert content[..|h|] == h;
    }
    CountJoin(names, sep, ';');
    CountJoin(names, sep, ',');
  }

  /** Joining line-free pieces with `;` or `,` gives one line. */
  lemma {:induction false} JoinLineFree(ps: seq<string>, sep: char)
    requires |ps| >= 1 && (sep == ';' || sep == ',')
    requires forall p <- ps :: '\n' !in p && '\r' !in p
    ensures forall c <- Join(ps, sep) :: !IsLineBreak(c)
    decreases |ps|
  {
    if |ps| > 1 {
      JoinLineFree(ps[1..], sep);
    }
  }
}
