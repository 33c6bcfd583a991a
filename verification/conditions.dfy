/** The applicability condition of a bank configuration and the row mask it
    yields (`_criar_mascara_condicional`). */
module Conditions {
  import opened Wrappers
  import opened Text
  import opened Model

  const APPLY_ALL := "Aplicar a toda a base"

  /** The stripped, non-blank pieces, in order. */
  function NonBlank(ps: seq<string>, sep: char): (ks: seq<string>)
    requires forall p <- ps :: sep !in p
    ensures forall k <- ks :: k != [] && Strip(k) == k && sep !in k
    ensures |ks| <= |ps|
    decreases |ps|
  {
    if ps == [] then []
    else
      var p := Strip(ps[0]);
      StripIdempotent(ps[0]);
      StripAbsent(ps[0], sep);
      var rest := NonBlank(ps[1..], sep);
      (if p != [] then [p] else []) + rest
  }

  /** Every non-blank piece yields a keyword, and every keyword is a stripped
      piece. */
  lemma {:induction false} NonBlankExact(ps: seq<string>, sep: char)
    requires forall p <- ps :: sep !in p
    ensures forall p <- ps :: Strip(p) != [] ==> Strip(p) in NonBlank(ps, sep)
    ensures forall k <- NonBlank(ps, sep) :: exists p <- ps :: k == Strip(p)
    decreases |ps|
  {
    if ps != [] {
      NonBlankExact(ps[1..], sep);
      assert forall p <- ps :: p == ps[0] || p in ps[1..];
    }
  }

  /** The keywords of a keyword-mode condition: the `;`-separated pieces of
      the value, stripped, blanks dropped. */
  function KeywordList(value: string): (ks: seq<string>)
    ensures forall k <- ks :: k != [] && Strip(k) == k && ';' !in k
    ensures forall p <- Split(value, ';') :: Strip(p) != [] ==> Strip(p) in ks
    ensures forall k <- ks :: exists p <- Split(value, ';') :: k == Strip(p)
  {
    NonBlankExact(Split(value, ';'), ';');
    NonBlank(Split(value, ';'), ';')
  }

  /** A value with no `;` is a single keyword, stripped, unless it is blank. */
  lemma SingleKeyword(value: string)
    requires ';' !in value
    ensures KeywordList(value) == if Strip(value) == [] then [] else [Strip(value)]
  {
    SplitNoSep(value, ';');
    assert Split(value, ';') == [value];
    assert NonBlank([value], ';') == (if Strip(value) != [] then [Strip(value)] else []) + NonBlank([], ';');
  }

  /** Python truthiness of `valor_condicional`: present and not empty. */
  predicate Truthy(v: Option<string>) {
    v.Some? && v.value != []
  }

  /** The condition column exists and is not entirely null. */
  predicate Usable(t: Base, col: string) {
    col in t.columns && exists c <- t.rows :: Get(c.cells, col) != Null
  }

  /** Whether the condition restricts the unclaimed rows at all. */
  predicate Narrows(t: Base, cond: Condition) {
    && cond.column != APPLY_ALL
    && Usable(t, cond.column)
    && Truthy(cond.value)
    && (cond.mode.Keywords? ==> KeywordList(cond.value.value) != [])
  }

  /** A cell matches a keyword list when it is text containing some keyword,
      ignoring case; null cells never match. */
  predicate KeywordHit(v: Value, ks: seq<string>) {
    v.Str? && exists k <- ks :: ContainsIgnoringCase(v.s, k)
  }

  /** The condition holds for row `c` of table `t`. */
  predicate Applies(t: Base, cond: Condition, c: Customer) {
    !Narrows(t, cond) ||
    match cond.mode
    case Keywords => KeywordHit(Get(c.cells, cond.column), KeywordList(cond.value.value))
    case SingleValue => Get(c.cells, cond.column) == Str(cond.value.value)
  }

  /** The mask of rows a configuration claims: the unclaimed rows, narrowed by
      the condition. */
  function Mask(t: Base, cond: Condition, claimed: seq<bool>): (m: seq<bool>)
    requires |claimed| == |t.rows|
    ensures |m| == |t.rows|
    ensures forall i :: 0 <= i < |m| && m[i] ==> !claimed[i]
    ensures !Narrows(t, cond) ==> forall i :: 0 <= i < |m| ==> m[i] == !claimed[i]
    ensures Narrows(t, cond) && cond.mode.Keywords? ==>
      forall i :: 0 <= i < |m| ==>
        (m[i] <==> !claimed[i] && KeywordHit(Get(t.rows[i].cells, cond.column), KeywordList(cond.value.value)))
    ensures Narrows(t, cond) && cond.mode.SingleValue? ==>
      forall i :: 0 <= i < |m| ==>
        (m[i] <==> !claimed[i] && Get(t.rows[i].cells, cond.column) == Str(cond.value.value))
  {
    seq(|claimed|, i requires 0 <= i < |claimed| => !claimed[i] && Applies(t, cond, t.rows[i]))
  }

  /** The four ways a condition leaves the mask at "not yet claimed": apply to
      the whole table, an absent column, an entirely null column, and an
      empty value. */
  lemma PermissiveFallbacks(t: Base, cond: Condition, claimed: seq<bool>)
    requires |claimed| == |t.rows|
    requires || cond.column == APPLY_ALL
             || cond.column !in t.columns
             || (forall c <- t.rows :: Get(c.cells, cond.column) == Null)
             || !Truthy(cond.value)
    ensures forall i :: 0 <= i < |t.rows| ==> Mask(t, cond, claimed)[i] == !claimed[i]
  {
  }
}
