/**
 * The financial summary panel: income, spending, debts and what is left to invest, and
 * a colour and a message that grade the spending.
 */
module SummaryPanel {
  import opened Base
  import opened Ledger
  import opened Transactions
  import opened Debts

  /** The panel's figures (`totalBudget` is the income, `totalSpent` the spending). */
  datatype PanelData = PanelData(
    totalBudget: real,
    totalSpent: real,
    totalDebts: real,
    availableToInvest: real,
    expenseRatio: real)

  /** `debts.reduce((sum, debt) => sum + debt.remainingAmount, 0)`. */
  function DebtTotal(debts: seq<Debt>): real
    decreases |debts|
  {
    if debts == [] then 0.0 else DebtTotal(debts[..|debts| - 1]) + debts[|debts| - 1].remainingAmount
  }

  lemma {:induction false} DebtTotalNonNegative(debts: seq<Debt>)
    requires forall k :: 0 <= k < |debts| ==> debts[k].remainingAmount >= 0.0
    ensures DebtTotal(debts) >= 0.0
    decreases |debts|
  {
    if debts != [] {
      DebtTotalNonNegative(debts[..|debts| - 1]);
    }
  }

  /**
   * `fetchData`: the spending is the magnitude of the summary's expenses, what can be
   * invested is the balance left after the debts but never below zero, and the expense
   * ratio is the spending as a percentage of a positive income (0 otherwise).
   */
  function Panel(s: Summary, debts: seq<Debt>): (p: PanelData)
    ensures p.totalBudget == s.income && p.totalSpent == Abs(s.expenses) && p.totalDebts == DebtTotal(debts)
    ensures p.totalSpent >= 0.0
    ensures p.availableToInvest >= 0.0 && p.availableToInvest >= s.balance - p.totalDebts
    ensures p.availableToInvest == 0.0 || p.availableToInvest == s.balance - p.totalDebts
    ensures s.income > 0.0 ==> p.expenseRatio * s.income == p.totalSpent * 100.0
    ensures s.income <= 0.0 ==> p.expenseRatio == 0.0
  {
    var totalExpenses := Abs(s.expenses);
    var totalDebts := DebtTotal(debts);
    PanelData(
      s.income,
      totalExpenses,
      totalDebts,
      Max(0.0, s.balance - totalDebts),
      if s.income > 0.0 then (totalExpenses / s.income) * 100.0 else 0.0)
  }

  /** The background of the spending card, `getExpenseColor`. */
  datatype Background = StrongRed | LightRed | LightYellow | LightGreen

  /** The message of the spending card, `getExpenseAlert`. */
  datatype Advice = ReduceUrgently | InvestMore | UnderControl | KeepGoing

  /** `getExpenseColor`: a negative balance, then a ratio under 5, then up to 20. */
  function ExpenseColor(p: PanelData): Background
  {
    if p.totalBudget - p.totalSpent < 0.0 then StrongRed
    else if p.expenseRatio < 5.0 then LightRed
    else if p.expenseRatio <= 20.0 then LightYellow
    else LightGreen
  }

  /** `getExpenseAlert`: the same tiers, each with its message. */
  function ExpenseAlert(p: PanelData): Advice
  {
    var balance := p.totalBudget - p.totalSpent;
    if balance < 0.0 then ReduceUrgently
    else if p.expenseRatio < 5.0 then InvestMore
    else if p.expenseRatio <= 20.0 then UnderControl
    else KeepGoing
  }

  /** The colour and the message always grade the spending alike. */
  lemma ColourMatchesAdvice(p: PanelData)
    ensures ExpenseColor(p) == StrongRed <==> ExpenseAlert(p) == ReduceUrgently
    ensures ExpenseColor(p) == LightRed <==> ExpenseAlert(p) == InvestMore
    ensures ExpenseColor(p) == LightYellow <==> ExpenseAlert(p) == UnderControl
    ensures ExpenseColor(p) == LightGreen <==> ExpenseAlert(p) == KeepGoing
  {
  }

  /**
   * Over a consistent summary (non-negative totals, balance the difference): the urgent
   * tier is exactly a negative balance; with a positive income the ratio passes 100
   * exactly then; and with no income every summary lands in the urgent or the 'invest
   * more' tier.
   */
  lemma {:induction false} TiersOverSummary(s: Summary, debts: seq<Debt>)
    requires s.income >= 0.0 && s.expenses >= 0.0 && s.balance == s.income - s.expenses
    ensures ExpenseAlert(Panel(s, debts)) == ReduceUrgently <==> s.balance < 0.0
    ensures s.income > 0.0 ==> (Panel(s, debts).expenseRatio > 100.0 <==> s.balance < 0.0)
    ensures s.income == 0.0 ==> ExpenseAlert(Panel(s, debts)) in {ReduceUrgently, InvestMore}
  {
    var p := Panel(s, debts);
    assert p.totalSpent == s.expenses;
    if s.income > 0.0 {
      var q := s.expenses / s.income;
      assert q * s.income == s.expenses;
      assert p.expenseRatio == q * 100.0;
      if q > 1.0 {
        assert (q - 1.0) * s.income > 0.0;
      } else {
        assert (1.0 - q) * s.income >= 0.0;
      }
    }
  }

  /** The summary the panel fetches is consistent, so the tiers above apply to it. */
  lemma {:induction false} PanelOverSummary(ts: seq<Transaction>, cats: seq<Category>, debts: seq<Debt>)
    ensures var s := Summarize(ts, cats);
      ExpenseAlert(Panel(s, debts)) == ReduceUrgently <==> s.balance < 0.0
    ensures var s := Summarize(ts, cats);
      s.income > 0.0 ==> (Panel(s, debts).expenseRatio > 100.0 <==> s.balance < 0.0)
  {
    TiersOverSummary(Summarize(ts, cats), debts);
  }

  /** With no debt below zero, nothing more than a non-negative balance is offered for investing. */
  lemma AvailableWithinBalance(s: Summary, debts: seq<Debt>)
    requires forall k :: 0 <= k < |debts| ==> debts[k].remainingAmount >= 0.0
    ensures Panel(s, debts).availableToInvest <= Max(0.0, s.balance)
    ensures debts == [] ==> Panel(s, debts).availableToInvest == Max(0.0, s.balance)
  {
    DebtTotalNonNegative(debts);
  }
}
