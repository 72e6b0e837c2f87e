/**
 * The budget cards of the budgets page: the share of the limit spent, the bar colour
 * and width, the warning icon and the highlighted remainder.
 */
module BudgetsView {
  import opened Base
  import opened Budgets
  import Alerts

  datatype BarColor = RedBar | YellowBar | GreenBar

  /** `(spent / amount) * 100`. */
  function Percentage(b: Budget): Ext
  {
    Percent(b.spent, b.amount)
  }

  /** `getProgressColor`: red from 100, yellow from 80, green below. */
  function ProgressColor(p: Ext): (c: BarColor)
    ensures c == RedBar <==> Ge(p, 100.0)
    ensures c == YellowBar <==> Ge(p, 80.0) && !Ge(p, 100.0)
    ensures c == GreenBar <==> !Ge(p, 80.0)
  {
    if Ge(p, 100.0) then RedBar
    else if Ge(p, 80.0) then YellowBar
    else GreenBar
  }

  /** `getStatusIcon`: the warning triangle from 90 on. */
  predicate WarningShown(p: Ext)
  {
    Ge(p, 90.0)
  }

  /** The remainder is highlighted from 100 on. */
  predicate RemainingHighlighted(p: Ext)
  {
    Ge(p, 100.0)
  }

  /** `amount - spent`, the remainder shown under the bar. */
  function Remaining(b: Budget): real
  {
    b.amount - b.spent
  }

  /** `Math.min(percentage, 100)`, the width of the bar. */
  function BarWidth(p: Ext): (w: Ext)
    ensures p != NaN ==> Le(w, 100.0)
    ensures p == NaN ==> w == NaN
  {
    MinWith(p, 100.0)
  }

  /**
   * The card and the alert generator read the same percentage with the same thresholds:
   * a red bar is a critical alert, a yellow bar a high or medium one, a green bar none;
   * the warning icon shows for critical and high alerts, and the remainder is highlighted
   * exactly on red bars.
   */
  lemma CardMatchesAlert(b: Budget)
    ensures var c := ProgressColor(Percentage(b));
      var a := Alerts.BudgetAlert(b);
      && (c == RedBar <==> a.Some? && a.value.severity == Alerts.Critical)
      && (c == YellowBar <==> a.Some? && a.value.severity in {Alerts.High, Alerts.Medium})
      && (c == GreenBar <==> a.None?)
    ensures var a := Alerts.BudgetAlert(b);
      WarningShown(Percentage(b)) <==> a.Some? && a.value.severity in {Alerts.Critical, Alerts.High}
    ensures RemainingHighlighted(Percentage(b)) <==> ProgressColor(Percentage(b)) == RedBar
  {
  }

  /** For a positive limit the tiers are plain comparisons of what was spent with the limit. */
  lemma {:induction false} PositiveLimitTiers(b: Budget)
    requires b.amount > 0.0
    ensures ProgressColor(Percentage(b)) == RedBar <==> b.spent >= b.amount
    ensures ProgressColor(Percentage(b)) == GreenBar <==> b.spent * 100.0 < b.amount * 80.0
    ensures WarningShown(Percentage(b)) <==> b.spent * 100.0 >= b.amount * 90.0
    ensures RemainingHighlighted(Percentage(b)) <==> Remaining(b) <= 0.0
  {
    PercentAtLeast(b.spent, b.amount, 100.0);
    PercentAtLeast(b.spent, b.amount, 90.0);
    PercentAtLeast(b.spent, b.amount, 80.0);
  }

  /**
   * With nothing negative the bar is between empty and full, except that a zero limit
   * with nothing spent gives NaN; a zero limit with something spent gives a full red bar.
   */
  lemma {:induction false} BarWidthBounds(b: Budget)
    requires b.spent >= 0.0 && b.amount >= 0.0
    ensures BarWidth(Percentage(b)) == NaN <==> b.spent == 0.0 && b.amount == 0.0
    ensures BarWidth(Percentage(b)).Fin? <==> !(b.spent == 0.0 && b.amount == 0.0)
    ensures BarWidth(Percentage(b)).Fin? ==> 0.0 <= BarWidth(Percentage(b)).v <= 100.0
    ensures b.amount == 0.0 && b.spent > 0.0 ==>
      BarWidth(Percentage(b)) == Fin(100.0) && ProgressColor(Percentage(b)) == RedBar
  {
    if b.amount > 0.0 {
      var q := b.spent / b.amount;
      assert q * b.amount == b.spent;
      assert q >= 0.0;
      assert Percentage(b) == Fin(q * 100.0);
    }
  }
}
