/**
 * The debt cards of the debts page: the status colour and text from the status and
 * the days to the due date, the paid-off progress, and the payment form.
 */
module DebtsView {
  import opened Base
  import opened Debts
  import Alerts

  /** The text colour of the status line. */
  datatype Tone = Green | Red | Yellow | Gray

  /** The status text: 'Paga', 'Vencida', or "Vence em N dias". */
  datatype StatusLabel = Settled | PastDue | DueIn(days: int)

  /** `getStatusColor`: paid first, then overdue or past due, then within a week. */
  function StatusColor(status: DebtStatus, days: int): (t: Tone)
    ensures t == Green <==> status == Paid
    ensures t == Red <==> status != Paid && (status == Overdue || days < 0)
    ensures t == Yellow <==> status == Active && 0 <= days <= 7
    ensures t == Gray <==> status == Active && days > 7
  {
    if status == Paid then Green
    else if status == Overdue || days < 0 then Red
    else if days <= 7 then (assert status.Active?; Yellow)
    else (assert status.Active?; Gray)
  }

  /** `getStatusText`: the same tests in the same order; both later tiers show the day count. */
  function StatusText(status: DebtStatus, days: int): (l: StatusLabel)
    ensures l.DueIn? ==> l.days == days
  {
    if status == Paid then Settled
    else if status == Overdue || days < 0 then PastDue
    else if days <= 7 then DueIn(days)
    else DueIn(days)
  }

  /** The colour and the text always tell the same story. */
  lemma ColourMatchesText(status: DebtStatus, days: int)
    ensures StatusColor(status, days) == Green <==> StatusText(status, days) == Settled
    ensures StatusColor(status, days) == Red <==> StatusText(status, days) == PastDue
    ensures StatusColor(status, days) in {Yellow, Gray} <==> StatusText(status, days) == DueIn(days)
  {
  }

  /**
   * For an active debt the card and the alert generator agree: red exactly when an
   * overdue alert is raised, yellow exactly when a due-soon alert is, and gray when none is.
   */
  lemma {:induction false} ActiveCardMatchesAlert(d: Debt, now: int)
    requires d.status == Active
    ensures var t := StatusColor(d.status, DaysUntil(d.dueDate, now));
      var a := Alerts.DebtAlert(d, now);
      && (t == Red <==> a.Some? && a.value.message.DebtOverdue?)
      && (t == Yellow <==> a.Some? && !a.value.message.DebtOverdue?)
      && (t == Gray <==> a.None?)
  {
    Alerts.DebtAlertTiers(d, now);
    DaysUntilNegative(d.dueDate, now);
  }

  /** `((total - remaining) / total) * 100`: the share already paid. */
  function Progress(d: Debt): Ext
  {
    Percent(d.totalAmount - d.remainingAmount, d.totalAmount)
  }

  /** With what remains between zero and the total, the progress is a percentage that reaches 100 only when nothing remains. */
  lemma {:induction false} ProgressBounds(d: Debt)
    requires d.totalAmount > 0.0 && 0.0 <= d.remainingAmount <= d.totalAmount
    ensures Progress(d).Fin? && 0.0 <= Progress(d).v <= 100.0
    ensures Progress(d).v == 100.0 <==> d.remainingAmount == 0.0
  {
    var t := d.totalAmount;
    var q := (t - d.remainingAmount) / t;
    assert q * t == t - d.remainingAmount;
    assert Progress(d) == Fin(q * 100.0);
    assert 0.0 <= q <= 1.0;
    assert q == 1.0 <==> d.remainingAmount == 0.0;
  }

  /** A payment never moves the progress back, and one that settles the debt completes it. */
  lemma {:induction false} PaymentAdvancesProgress(d: Debt, amount: real)
    requires d.totalAmount > 0.0 && d.remainingAmount >= 0.0 && amount >= 0.0
    ensures Progress(ApplyPayment(d, amount)).Fin? && Progress(d).Fin?
    ensures Progress(ApplyPayment(d, amount)).v >= Progress(d).v
    ensures amount >= d.remainingAmount ==> Progress(ApplyPayment(d, amount)).v == 100.0
  {
    var after := ApplyPayment(d, amount);
    PaymentLowersRemaining(d, amount);
    var t := d.totalAmount;
    var q := (t - d.remainingAmount) / t;
    var q' := (t - after.remainingAmount) / t;
    assert q * t == t - d.remainingAmount;
    assert q' * t == t - after.remainingAmount;
    assert (q' - q) * t >= 0.0;
    assert q' >= q;
    assert Progress(d) == Fin(q * 100.0);
    assert Progress(after) == Fin(q' * 100.0);
  }

  /** The payment form is shown only on active debts. */
  predicate PaymentFormShown(d: Debt)
  {
    d.status == Active
  }

  /**
   * `handlePayment` followed by the payment handler: an empty or non-positive amount is
   * ignored and leaves the debt as it is; any other amount is applied.
   */
  function AfterPaymentForm(d: Debt, input: Option<real>): (r: Debt)
    ensures AcceptedAmount(input).None? ==> r == d
    ensures AcceptedAmount(input).Some? ==> r == ApplyPayment(d, input.value)
  {
    match AcceptedAmount(input)
    case None => d
    case Some(amount) => ApplyPayment(d, amount)
  }

  /**
   * What the form can do to a debt with something left: what remains never grows, an accepted amount
   * strictly lowers it or settles the debt, and a settled debt no longer shows the form.
   */
  lemma {:induction false} PaymentFormLowersDebt(d: Debt, input: Option<real>)
    requires d.remainingAmount > 0.0
    ensures AfterPaymentForm(d, input).remainingAmount <= d.remainingAmount
    ensures AcceptedAmount(input).Some? ==> AfterPaymentForm(d, input).remainingAmount < d.remainingAmount
    ensures AfterPaymentForm(d, input).remainingAmount == 0.0 ==> !PaymentFormShown(AfterPaymentForm(d, input))
  {
    if AcceptedAmount(input).Some? {
      PaymentLowersRemaining(d, input.value);
    }
  }
}
