/**
 * The emergency-fund card: how much of the target is saved, whether the target is
 * reached, what is still missing, and the contribution form.
 */
module EmergencyFundCard {
  import opened Base
  import opened EmergencyFunds

  /** `targetAmount > 0 ? (currentAmount / targetAmount) * 100 : 0`. */
  function Progress(f: Fund): (p: real)
    ensures f.targetAmount <= 0.0 ==> p == 0.0
    ensures f.targetAmount > 0.0 ==> p * f.targetAmount == f.currentAmount * 100.0
  {
    if f.targetAmount > 0.0 then (f.currentAmount / f.targetAmount) * 100.0 else 0.0
  }

  /** `isComplete = progress >= 100`. */
  predicate IsComplete(f: Fund)
  {
    Progress(f) >= 100.0
  }

  /** The target is reached exactly when it is positive and the savings cover it; a fund without a target is never complete. */
  lemma {:induction false} CompleteIffSaved(f: Fund)
    ensures IsComplete(f) <==> f.targetAmount > 0.0 && f.currentAmount >= f.targetAmount
  {
    if f.targetAmount > 0.0 {
      var q := f.currentAmount / f.targetAmount;
      assert q * f.targetAmount == f.currentAmount;
      if q >= 1.0 {
        assert (q - 1.0) * f.targetAmount >= 0.0;
      } else {
        assert (1.0 - q) * f.targetAmount > 0.0;
      }
    }
  }

  /** `Math.min(progress, 100)`, the width of the bar. */
  function BarWidth(f: Fund): (w: real)
    ensures w <= 100.0
    ensures w == 100.0 <==> IsComplete(f)
    ensures f.currentAmount >= 0.0 ==> w >= 0.0
  {
    var p := Progress(f);
    if p <= 100.0 then p else 100.0
  }

  /** `targetAmount - currentAmount`, shown while the target is not reached. */
  function Remainder(f: Fund): real
  {
    f.targetAmount - f.currentAmount
  }

  /** While a positive target is not reached, the amount shown as missing is positive. */
  lemma RemainderPositive(f: Fund)
    requires f.targetAmount > 0.0 && !IsComplete(f)
    ensures Remainder(f) > 0.0
  {
    CompleteIffSaved(f);
  }

  /**
   * `handleContribution` followed by the contribution handler: an empty or non-positive
   * amount leaves the fund as it is; any other amount is added to the savings.
   */
  function AfterContributionForm(f: Fund, input: Option<real>): (r: Fund)
    ensures AcceptedAmount(input).None? ==> r == f
    ensures AcceptedAmount(input).Some? ==> r == f.(currentAmount := f.currentAmount + input.value)
  {
    match AcceptedAmount(input)
    case None => f
    case Some(amount) => f.(currentAmount := f.currentAmount + amount)
  }

  /**
   * The form only moves a fund forward: progress never drops, a complete fund stays
   * complete, and an accepted amount covering the remainder completes a fund with a target.
   */
  lemma {:induction false} ContributionAdvances(f: Fund, input: Option<real>)
    ensures Progress(AfterContributionForm(f, input)) >= Progress(f)
    ensures IsComplete(f) ==> IsComplete(AfterContributionForm(f, input))
    ensures f.targetAmount > 0.0 && AcceptedAmount(input).Some? && input.value >= Remainder(f) ==>
      IsComplete(AfterContributionForm(f, input))
  {
    var g := AfterContributionForm(f, input);
    CompleteIffSaved(f);
    CompleteIffSaved(g);
    if f.targetAmount > 0.0 {
      var q := f.currentAmount / f.targetAmount;
      var q' := g.currentAmount / f.targetAmount;
      assert q * f.targetAmount == f.currentAmount;
      assert q' * f.targetAmount == g.currentAmount;
      assert (q' - q) * f.targetAmount >= 0.0;
    }
  }
}
