/** The safety margin ("margem de segurança"): a haircut a bank
    configuration applies to a customer's available margin before the
    released amount is computed from it. */
module SafetyMargin {

  /** `modo_margem_seguranca`: "Percentual (%)", "Valor Fixo (R$)", or any
      other value (including none). */
  datatype Mode = Percentage | FixedAmount | Unrecognised

  /** `usa_margem_seguranca`, `modo_margem_seguranca`,
      `valor_margem_seguranca` of one bank configuration. */
  datatype Safety = Safety(enabled: bool, mode: Mode, value: real)

  /** The haircut applied to one available margin. */
  function Adjust(s: Safety, x: real): real {
    if !s.enabled then x
    else match s.mode
      case Percentage => x * (1.0 - s.value / 100.0)
      case FixedAmount => if x - s.value < 0.0 then 0.0 else x - s.value
      case Unrecognised => x
  }

  /** The haircut applied elementwise to a series of available margins. */
  function Apply(s: Safety, xs: seq<real>): (r: seq<real>)
    ensures |r| == |xs|
    ensures !s.enabled || s.mode.Unrecognised? ==> r == xs
    ensures s.enabled && s.mode.Percentage? && s.value == 0.0 ==> r == xs
    ensures s.enabled && s.mode.Percentage? ==>
      forall i :: 0 <= i < |xs| ==> r[i] == xs[i] * (1.0 - s.value / 100.0)
    ensures s.enabled && s.mode.FixedAmount? ==>
      forall i :: 0 <= i < |xs| ==>
        && r[i] >= 0.0
        && (xs[i] >= s.value ==> r[i] == xs[i] - s.value)
        && (xs[i] < s.value ==> r[i] == 0.0)
  {
    seq(|xs|, i requires 0 <= i < |xs| => Adjust(s, xs[i]))
  }

  /** The series version agrees with the scalar one at every position, so a
      calculator may apply the haircut row by row. */
  lemma ApplyAt(s: Safety, xs: seq<real>, i: nat)
    requires i < |xs|
    ensures Apply(s, xs)[i] == Adjust(s, xs[i])
  {
  }

  /** Applying the haircut to the rows picked by a mask gives the same values
      as picking those rows from the haircut of the whole series: alignment
      with the input rows is kept. */
  lemma ApplyCommutesWithSelection(s: Safety, xs: seq<real>, picks: seq<nat>)
    requires forall j :: 0 <= j < |picks| ==> picks[j] < |xs|
    ensures Apply(s, seq(|picks|, j requires 0 <= j < |picks| => xs[picks[j]]))
         == seq(|picks|, j requires 0 <= j < |picks| => Apply(s, xs)[picks[j]])
  {
    var sub := seq(|picks|, j requires 0 <= j < |picks| => xs[picks[j]]);
    forall j | 0 <= j < |picks|
      ensures Apply(s, sub)[j] == Apply(s, xs)[picks[j]]
    {
      ApplyAt(s, sub, j);
      ApplyAt(s, xs, picks[j]);
    }
  }

  /** A fixed-amount haircut never raises a non-negative margin and never
      goes below zero. */
  lemma FixedAmountBounds(s: Safety, x: real)
    requires s.enabled && s.mode.FixedAmount? && s.value >= 0.0 && x >= 0.0
    ensures 0.0 <= Adjust(s, x) <= x
  {
  }

  /** A percentage haircut between 0% and 100% keeps a non-negative margin
      between zero and itself. */
  lemma PercentageBounds(s: Safety, x: real)
    requires s.enabled && s.mode.Percentage? && 0.0 <= s.value <= 100.0 && x >= 0.0
    ensures 0.0 <= Adjust(s, x) <= x
  {
    var f := 1.0 - s.value / 100.0;
    assert 0.0 <= f <= 1.0;
    assert Adjust(s, x) == x * f;
    assert x - x * f == x * (s.value / 100.0);
    assert x * (s.value / 100.0) >= 0.0;
    assert x * f >= 0.0;
  }
}
