/**
 * The alert generator. Every run empties the alert table, then creates alerts for
 * budgets near or over their limit, goals close to their date and behind, active debts
 * close to or past their due date, and the overall balance; it answers with the new
 * alerts, most severe first.
 */
module Alerts {
  import opened Base
  import opened Sorting
  import opened Ledger
  import opened Transactions
  import opened Budgets
  import opened Goals
  import opened Debts

  /** The `severity` column: `ENUM('low', 'medium', 'high', 'critical')`. */
  datatype Severity = Low | Medium | High | Critical

  /** The `type` column: `ENUM('budget_limit', 'goal_deadline', 'debt_due', 'emergency_fund')`. */
  datatype AlertKind = BudgetLimit | GoalDeadline | DebtDue | EmergencyFund

  /** Title and message of an alert, as the figures they are written from. */
  datatype Message =
    | BudgetExceeded(overBy: Ext)                              // 'Orçamento Excedido'
    | BudgetNearlySpent(percentage: Ext)                       // 'Orçamento Quase Esgotado'
    | BudgetNearLimit(percentage: Ext)                         // 'Orçamento Próximo do Limite'
    | GoalCritical(goalName: string, daysLeft: int, progress: Ext) // 'Meta Crítica'
    | GoalAtRisk(goalName: string, daysLeft: int, progress: Ext)   // 'Meta em Risco'
    | GoalBehind(goalName: string, progress: Ext)              // 'Meta Atrasada'
    | DebtOverdue(debtName: string, daysOverdue: int)          // 'Dívida Vencida'
    | DebtDueToday(debtName: string)                           // 'Vencimento Hoje'
    | DebtDueUrgently(debtName: string, daysLeft: int)         // 'Vencimento Urgente'
    | DebtDueSoon(debtName: string, daysLeft: int)             // 'Vencimento Próximo'
    | NegativeBalance(deficit: real)                           // 'Saldo Negativo - Ação Urgente!'
    | InvestmentOpportunity(balance: real)                     // 'Oportunidade de Investimento'
    | LowBalance(balance: real)                                // 'Saldo Baixo'

  /** The fields `Alert.create` is given. */
  datatype Draft = Draft(kind: AlertKind, message: Message, severity: Severity, relatedId: Option<int>)

  /** A stored alert: the draft plus its id and the `isRead` default. */
  datatype Alert = Alert(id: int, kind: AlertKind, message: Message, severity: Severity, isRead: bool, relatedId: Option<int>)

  function DraftOf(a: Alert): Draft
  {
    Draft(a.kind, a.message, a.severity, a.relatedId)
  }

  function Drafts(s: seq<Alert>): (r: seq<Draft>)
    ensures |r| == |s|
    ensures forall i :: 0 <= i < |s| ==> r[i] == DraftOf(s[i])
  {
    seq(|s|, i requires 0 <= i < |s| => DraftOf(s[i]))
  }

  // ---------------------------------------------------------------------------
  // The rules
  // ---------------------------------------------------------------------------

  /** The budget rule on `percentage = (spent / amount) * 100`: 100, 90 and 80 are the thresholds. */
  function BudgetAlert(b: Budget): (r: Option<Draft>)
    ensures r.Some? ==> r.value.kind == BudgetLimit && r.value.relatedId == Some(b.id)
    ensures r.Some? ==> r.value.severity != Low
  {
    var percentage := Percent(b.spent, b.amount);
    if Ge(percentage, 100.0) then
      Some(Draft(BudgetLimit, BudgetExceeded(Minus(percentage, 100.0)), Critical, Some(b.id)))
    else if Ge(percentage, 90.0) then
      Some(Draft(BudgetLimit, BudgetNearlySpent(percentage), High, Some(b.id)))
    else if Ge(percentage, 80.0) then
      Some(Draft(BudgetLimit, BudgetNearLimit(percentage), Medium, Some(b.id)))
    else None
  }

  /** For a positive limit, the tiers read as plain comparisons of `spent` with the limit. */
  lemma BudgetAlertTiers(b: Budget)
    requires b.amount > 0.0
    ensures BudgetAlert(b).Some? && BudgetAlert(b).value.severity == Critical <==> b.spent >= b.amount
    ensures BudgetAlert(b).Some? && BudgetAlert(b).value.severity == High <==>
      b.spent * 100.0 >= b.amount * 90.0 && b.spent < b.amount
    ensures BudgetAlert(b).Some? && BudgetAlert(b).value.severity == Medium <==>
      b.spent * 100.0 >= b.amount * 80.0 && b.spent * 100.0 < b.amount * 90.0
    ensures BudgetAlert(b).None? <==> b.spent * 100.0 < b.amount * 80.0
  {
    PercentAtLeast(b.spent, b.amount, 100.0);
    PercentAtLeast(b.spent, b.amount, 90.0);
    PercentAtLeast(b.spent, b.amount, 80.0);
  }

  /**
   * A zero limit divides by zero: any positive `spent` gives +Infinity and a critical
   * alert; nothing spent gives NaN, which passes no threshold.
   */
  lemma BudgetAlertZeroLimit(b: Budget)
    requires b.amount == 0.0
    ensures b.spent > 0.0 ==> BudgetAlert(b).Some? && BudgetAlert(b).value.severity == Critical
    ensures b.spent <= 0.0 ==> BudgetAlert(b).None?
  {
  }

  /**
   * The goal rule, first match wins: 7 days and under 50%, 15 days and under 70%,
   * 30 days and under 80%.
   */
  function GoalAlert(g: Goal, now: int): (r: Option<Draft>)
    ensures r.Some? ==> r.value.kind == GoalDeadline && r.value.relatedId == Some(g.id)
    ensures r.Some? ==> r.value.severity != Low
    ensures r.Some? ==> DaysUntil(g.targetDate, now) <= 30
  {
    var daysLeft := DaysUntil(g.targetDate, now);
    var progress := Percent(g.currentAmount, g.targetAmount);
    if daysLeft <= 7 && Lt(progress, 50.0) then
      Some(Draft(GoalDeadline, GoalCritical(g.name, daysLeft, progress), Critical, Some(g.id)))
    else if daysLeft <= 15 && Lt(progress, 70.0) then
      Some(Draft(GoalDeadline, GoalAtRisk(g.name, daysLeft, progress), High, Some(g.id)))
    else if daysLeft <= 30 && Lt(progress, 80.0) then
      Some(Draft(GoalDeadline, GoalBehind(g.name, progress), Medium, Some(g.id)))
    else None
  }

  /** For a positive target, the goal tiers in terms of days left and saved amounts. */
  lemma GoalAlertTiers(g: Goal, now: int)
    requires g.targetAmount > 0.0
    ensures var d, c, t := DaysUntil(g.targetDate, now), g.currentAmount * 100.0, g.targetAmount;
      && (GoalAlert(g, now).Some? && GoalAlert(g, now).value.severity == Critical <==> d <= 7 && c < 50.0 * t)
      && (GoalAlert(g, now).Some? && GoalAlert(g, now).value.severity == High <==>
            !(d <= 7 && c < 50.0 * t) && d <= 15 && c < 70.0 * t)
      && (GoalAlert(g, now).Some? && GoalAlert(g, now).value.severity == Medium <==>
            !(d <= 7 && c < 50.0 * t) && !(d <= 15 && c < 70.0 * t) && d <= 30 && c < 80.0 * t)
  {
    PercentAtLeast(g.currentAmount, g.targetAmount, 50.0);
    PercentAtLeast(g.currentAmount, g.targetAmount, 70.0);
    PercentAtLeast(g.currentAmount, g.targetAmount, 80.0);
  }

  /** A goal saved to at least 80% of a positive target raises no alert, however close its date. */
  lemma GoalNearlyReachedIsQuiet(g: Goal, now: int)
    requires g.targetAmount > 0.0 && g.currentAmount * 100.0 >= 80.0 * g.targetAmount
    ensures GoalAlert(g, now).None?
  {
    GoalAlertTiers(g, now);
  }

  /** The debt rule on whole days to the due date: overdue or due today, up to 3 days, up to 7 days. */
  function DebtAlert(d: Debt, now: int): (r: Option<Draft>)
    ensures r.Some? ==> r.value.kind == DebtDue && r.value.relatedId == Some(d.id)
  {
    var daysLeft := DaysUntil(d.dueDate, now);
    if daysLeft < 0 then
      Some(Draft(DebtDue, DebtOverdue(d.name, if daysLeft < 0 then -daysLeft else daysLeft), Critical, Some(d.id)))
    else if daysLeft == 0 then
      Some(Draft(DebtDue, DebtDueToday(d.name), Critical, Some(d.id)))
    else if daysLeft <= 3 then
      Some(Draft(DebtDue, DebtDueUrgently(d.name, daysLeft), High, Some(d.id)))
    else if daysLeft <= 7 then
      Some(Draft(DebtDue, DebtDueSoon(d.name, daysLeft), Medium, Some(d.id)))
    else None
  }

  /**
   * The debt tiers: critical from the due day on, high for 1 to 3 days, medium for 4 to
   * 7; the overdue message counts a positive number of days, and a debt is overdue only
   * once its due instant is a full day past.
   */
  lemma DebtAlertTiers(d: Debt, now: int)
    ensures var n := DaysUntil(d.dueDate, now);
      && (DebtAlert(d, now).Some? && DebtAlert(d, now).value.severity == Critical <==> n <= 0)
      && (DebtAlert(d, now).Some? && DebtAlert(d, now).value.severity == High <==> 1 <= n <= 3)
      && (DebtAlert(d, now).Some? && DebtAlert(d, now).value.severity == Medium <==> 4 <= n <= 7)
      && (DebtAlert(d, now).None? <==> n > 7)
    ensures DebtAlert(d, now).Some? && DebtAlert(d, now).value.message.DebtOverdue? <==>
      d.dueDate - now <= -DayMs
    ensures DebtAlert(d, now).Some? && DebtAlert(d, now).value.message.DebtOverdue? ==>
      DebtAlert(d, now).value.message.daysOverdue > 0
      && DebtAlert(d, now).value.message.daysOverdue == -DaysUntil(d.dueDate, now)
  {
    DaysUntilNegative(d.dueDate, now);
  }

  /** The balance rules: negative, above 1000, and from just above 0 up to 500. */
  function BalanceAlerts(balance: real): (r: seq<Draft>)
    ensures forall a :: a in r ==> a.relatedId.None?
  {
    (if balance < 0.0 then [Draft(BudgetLimit, NegativeBalance(Abs(balance)), Critical, None)] else [])
    + (if balance > 1000.0 then [Draft(EmergencyFund, InvestmentOpportunity(balance), Low, None)] else [])
    + (if balance > 0.0 && balance <= 500.0 then [Draft(EmergencyFund, LowBalance(balance), Medium, None)] else [])
  }

  /** At most one balance alert; none for a zero balance or one in (500, 1000]. */
  lemma BalanceAlertTiers(balance: real)
    ensures |BalanceAlerts(balance)| <= 1
    ensures BalanceAlerts(balance) == [] <==> balance == 0.0 || (500.0 < balance <= 1000.0)
    ensures balance < 0.0 ==>
      BalanceAlerts(balance) == [Draft(BudgetLimit, NegativeBalance(-balance), Critical, None)]
    ensures balance > 1000.0 ==> BalanceAlerts(balance)[0].severity == Low
    ensures 0.0 < balance <= 500.0 ==> BalanceAlerts(balance)[0].severity == Medium
  {
  }

  /** `(sum of income amounts || 0) + (sum of expense amounts || 0)`, over every transaction. */
  function Balance(txs: seq<Transaction>): real
  {
    SumOf(OfType(txs, Income), Amount) + SumOf(OfType(txs, Expense), Amount)
  }

  /**
   * With expenses stored negative, this balance is the summary's `income - expenses`
   * over the same transactions.
   */
  lemma BalanceMatchesSummary(txs: seq<Transaction>, cats: seq<Category>)
    requires AllSignNormalised(txs)
    ensures Balance(txs) == Summarize(txs, cats).balance
  {
    SignedTypeSums(txs);
  }

  // ---------------------------------------------------------------------------
  // What a run creates
  // ---------------------------------------------------------------------------

  function BudgetDrafts(budgets: seq<Budget>): (r: seq<Draft>)
    ensures |r| <= |budgets|
    ensures forall a :: a in r ==> a.kind == BudgetLimit && exists b :: b in budgets && a.relatedId == Some(b.id)
    decreases |budgets|
  {
    if budgets == [] then []
    else
      var b := budgets[|budgets| - 1];
      var rest := BudgetDrafts(budgets[..|budgets| - 1]);
      assert forall x :: x in budgets[..|budgets| - 1] ==> x in budgets;
      match BudgetAlert(b)
      case None => rest
      case Some(a) => rest + [a]
  }

  function GoalDrafts(goals: seq<Goal>, now: int): (r: seq<Draft>)
    ensures |r| <= |goals|
    ensures forall a :: a in r ==> a.kind == GoalDeadline && exists g :: g in goals && a.relatedId == Some(g.id)
    decreases |goals|
  {
    if goals == [] then []
    else
      var g := goals[|goals| - 1];
      var rest := GoalDrafts(goals[..|goals| - 1], now);
      assert forall x :: x in goals[..|goals| - 1] ==> x in goals;
      match GoalAlert(g, now)
      case None => rest
      case Some(a) => rest + [a]
  }

  /** Only debts whose status is `'active'` are read. */
  function DebtDrafts(debts: seq<Debt>, now: int): (r: seq<Draft>)
    ensures |r| <= |debts|
    ensures forall a :: a in r ==> a.kind == DebtDue && exists d :: d in debts && d.status == Active && a.relatedId == Some(d.id)
    decreases |debts|
  {
    if debts == [] then []
    else
      var d := debts[|debts| - 1];
      var rest := DebtDrafts(debts[..|debts| - 1], now);
      assert forall x :: x in debts[..|debts| - 1] ==> x in debts;
      if d.status != Active then rest
      else
        match DebtAlert(d, now)
        case None => rest
        case Some(a) => rest + [a]
  }

  /** Everything one run creates, in creation order. */
  function GeneratedDrafts(budgets: seq<Budget>, goals: seq<Goal>, debts: seq<Debt>, txs: seq<Transaction>, now: int): seq<Draft>
  {
    BudgetDrafts(budgets) + GoalDrafts(goals, now) + DebtDrafts(debts, now) + BalanceAlerts(Balance(txs))
  }

  // ---------------------------------------------------------------------------
  // Ordering
  // ---------------------------------------------------------------------------

  /** `severityOrder[severity] || 5`: every severity the column allows has a rank. */
  function Rank(s: Severity): (r: int)
    ensures 1 <= r <= 4
  {
    match s
    case Critical => 1
    case High => 2
    case Medium => 3
    case Low => 4
  }

  /** `le` of the comparator `aPriority - bPriority`. */
  function SeverityFirst(a: Alert, b: Alert): bool
  {
    Rank(a.severity) <= Rank(b.severity)
  }

  lemma SeverityFirstTotal()
    ensures TotalPreorder(SeverityFirst)
  {
  }

  /**
   * The answer for the stored alerts `s` (in creation order): read newest first, then
   * sorted by rank. It holds exactly the stored alerts, in non-decreasing rank, and
   * alerts of equal severity stay newest first.
   */
  lemma AnswerOrder(s: seq<Alert>)
    ensures var r := InsertionSort(Reverse(s), SeverityFirst);
      && multiset(r) == multiset(s)
      && (forall i, j :: 0 <= i < j < |r| ==> Rank(r[i].severity) <= Rank(r[j].severity))
      && (forall y :: Equivalents(r, y, SeverityFirst) == Equivalents(Reverse(s), y, SeverityFirst))
  {
    SeverityFirstTotal();
    InsertionSortSorted(Reverse(s), SeverityFirst);
    InsertionSortPermutes(Reverse(s), SeverityFirst);
    forall y ensures Equivalents(InsertionSort(Reverse(s), SeverityFirst), y, SeverityFirst)
                     == Equivalents(Reverse(s), y, SeverityFirst) {
      InsertionSortStable(Reverse(s), y, SeverityFirst);
    }
  }

  /** Alerts of equal severity are equivalent under the order, and only they are. */
  lemma EquivalentIffSameRank(a: Alert, b: Alert)
    ensures SeverityFirst(a, b) && SeverityFirst(b, a) <==> a.severity == b.severity
  {
  }

  // ---------------------------------------------------------------------------
  // The alert table
  // ---------------------------------------------------------------------------

  /** The stored alerts, in creation order, and the next auto-increment id. */
  class AlertStore {
    var alerts: seq<Alert>
    var nextId: int

    constructor ()
      ensures alerts == [] && nextId == 1
    {
      alerts := [];
      nextId := 1;
    }

    /** `Alert.destroy({ where: {} })`. */
    method DestroyAll()
      modifies this
      ensures alerts == [] && nextId == old(nextId)
    {
      alerts := [];
    }

    /** `Alert.create(draft)`: a new unread alert under the next id. */
    method Create(d: Draft) returns (a: Alert)
      modifies this
      ensures a == Alert(old(nextId), d.kind, d.message, d.severity, false, d.relatedId)
      ensures alerts == old(alerts) + [a] && nextId == old(nextId) + 1
    {
      a := Alert(nextId, d.kind, d.message, d.severity, false, d.relatedId);
      alerts := alerts + [a];
      nextId := nextId + 1;
    }

    /** Fresh, unread alerts numbered from `first` in creation order. */
    ghost predicate NumberedFrom(first: int)
      reads this
    {
      nextId == first + |alerts|
      && forall k :: 0 <= k < |alerts| ==> alerts[k].id == first + k && !alerts[k].isRead
    }

    /** One `Alert.create` inside a run: the numbering goes on and the draft is appended. */
    method Push(d: Draft, ghost first: int, ghost before: seq<Draft>)
      requires NumberedFrom(first) && Drafts(alerts) == before
      modifies this
      ensures NumberedFrom(first) && Drafts(alerts) == before + [d]
    {
      var a := Create(d);
      assert DraftOf(a) == d;
    }

    /** The budget loop. */
    method CreateBudgetAlerts(budgets: seq<Budget>, ghost first: int, ghost before: seq<Draft>)
      requires NumberedFrom(first) && Drafts(alerts) == before
      modifies this
      ensures NumberedFrom(first) && Drafts(alerts) == before + BudgetDrafts(budgets)
    {
      var i := 0;
      while i < |budgets|
        invariant 0 <= i <= |budgets|
        invariant NumberedFrom(first) && Drafts(alerts) == before + BudgetDrafts(budgets[..i])
      {
        assert budgets[..i + 1][..i] == budgets[..i];
        var d := BudgetAlert(budgets[i]);
        if d.Some? {
          Push(d.value, first, before + BudgetDrafts(budgets[..i]));
        }
        i := i + 1;
      }
      assert budgets[..i] == budgets;
    }

    /** The goal loop. */
    method CreateGoalAlerts(goals: seq<Goal>, now: int, ghost first: int, ghost before: seq<Draft>)
      requires NumberedFrom(first) && Drafts(alerts) == before
      modifies this
      ensures NumberedFrom(first) && Drafts(alerts) == before + GoalDrafts(goals, now)
    {
      var i := 0;
      while i < |goals|
        invariant 0 <= i <= |goals|
        invariant NumberedFrom(first) && Drafts(alerts) == before + GoalDrafts(goals[..i], now)
      {
        assert goals[..i + 1][..i] == goals[..i];
        var d := GoalAlert(goals[i], now);
        if d.Some? {
          Push(d.value, first, before + GoalDrafts(goals[..i], now));
        }
        i := i + 1;
      }
      assert goals[..i] == goals;
    }

    /** The loop over the active debts. */
    method CreateDebtAlerts(debts: seq<Debt>, now: int, ghost first: int, ghost before: seq<Draft>)
      requires NumberedFrom(first) && Drafts(alerts) == before
      modifies this
      ensures NumberedFrom(first) && Drafts(alerts) == before + DebtDrafts(debts, now)
    {
      var i := 0;
      while i < |debts|
        invariant 0 <= i <= |debts|
        invariant NumberedFrom(first) && Drafts(alerts) == before + DebtDrafts(debts[..i], now)
      {
        assert debts[..i + 1][..i] == debts[..i];
        if debts[i].status == Active {
          var d := DebtAlert(debts[i], now);
          if d.Some? {
            Push(d.value, first, before + DebtDrafts(debts[..i], now));
          }
        }
        i := i + 1;
      }
      assert debts[..i] == debts;
    }

    /** The balance checks, creating at most one alert. */
    method CreateBalanceAlerts(txs: seq<Transaction>, ghost first: int, ghost before: seq<Draft>)
      requires NumberedFrom(first) && Drafts(alerts) == before
      modifies this
      ensures NumberedFrom(first) && Drafts(alerts) == before + BalanceAlerts(Balance(txs))
    {
      var income := SumOf(OfType(txs, Income), Amount);
      var expenses := SumOf(OfType(txs, Expense), Amount);
      var balance := income + expenses;
      if balance < 0.0 {
        Push(Draft(BudgetLimit, NegativeBalance(Abs(balance)), Critical, None), first, before);
      }
      if balance > 1000.0 {
        Push(Draft(EmergencyFund, InvestmentOpportunity(balance), Low, None), first, before);
      }
      if balance > 0.0 && balance <= 500.0 {
        Push(Draft(EmergencyFund, LowBalance(balance), Medium, None), first, before);
      }
    }

    /** `Alert.findAll({ order: [['createdAt', 'DESC']] })` and the severity sort. */
    method Fetch() returns (result: seq<Alert>)
      ensures result == InsertionSort(Reverse(alerts), SeverityFirst)
    {
      var fetched := Reverse(alerts);
      var a := new Alert[|fetched|](k requires 0 <= k < |fetched| => fetched[k]);
      assert a[..] == fetched;
      SortInPlace(a, SeverityFirst);
      result := a[..];
    }

    /**
     * `generateAlerts`: the table ends up holding exactly this run's alerts, numbered on
     * from the previous ids, and the answer is them sorted by severity from newest first.
     */
    method Generate(budgets: seq<Budget>, goals: seq<Goal>, debts: seq<Debt>, txs: seq<Transaction>, now: int)
      returns (result: seq<Alert>)
      modifies this
      ensures Drafts(alerts) == GeneratedDrafts(budgets, goals, debts, txs, now)
      ensures NumberedFrom(old(nextId))
      ensures result == InsertionSort(Reverse(alerts), SeverityFirst)
    {
      DestroyAll();
      ghost var first := nextId;
      CreateBudgetAlerts(budgets, first, []);
      ghost var soFar := BudgetDrafts(budgets);
      CreateGoalAlerts(goals, now, first, soFar);
      soFar := soFar + GoalDrafts(goals, now);
      CreateDebtAlerts(debts, now, first, soFar);
      soFar := soFar + DebtDrafts(debts, now);
      CreateBalanceAlerts(txs, first, soFar);
      result := Fetch();
    }
  }
}
