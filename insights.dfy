/**
 * The insight report: income, expenses and balance for each of the last six months,
 * the average monthly expense, the current month's spending per category and the
 * category on top of it, and two lines of advice.
 */
module Insights {
  import opened Base
  import opened Sorting
  import opened Ledger
  import opened Transactions

  /** One entry of `monthlyData`; the month label is the (year, month index) it is written from. */
  datatype MonthData = MonthData(year: int, monthIndex: int, income: real, expenses: real, balance: real)

  /** The two advice lines. */
  datatype Insight =
    | AverageLine(average: Ext)                   // 'Sua média de gastos é R$ ...'
    | TopCategoryLine(name: string, amount: real) // 'Sua maior categoria de gasto este mês é ...'
    | NoTransactions                              // 'Nenhuma transação encontrada este mês'

  datatype Report = Report(
    monthlyData: seq<MonthData>,
    averageExpenses: Ext,
    topCategory: Option<(string, real)>,
    insights: seq<Insight>)

  /** The transactions dated inside the window (`date BETWEEN start AND end`). */
  function Dated(txs: seq<Transaction>, w: Window): (r: seq<Transaction>)
    ensures forall t :: t in r <==> t in txs && InWindow(t.date, w)
    decreases |txs|
  {
    if txs == [] then []
    else
      var t := txs[|txs| - 1];
      assert txs == txs[..|txs| - 1] + [t];
      Dated(txs[..|txs| - 1], w) + (if InWindow(t.date, w) then [t] else [])
  }

  /**
   * The figures of month `monthIndex` of `year` (an index out of 0..11 rolls over into
   * the neighbouring years): the sums of the amounts as stored, per type.
   */
  function Bucket(txs: seq<Transaction>, cal: Calendar, year: int, monthIndex: int): (b: MonthData)
    ensures (b.year, b.monthIndex) == NormalizeMonth(year, monthIndex)
    ensures b.income == SumOf(OfType(Dated(txs, MonthWindow(cal, year, monthIndex)), Income), Amount)
    ensures b.expenses == SumOf(OfType(Dated(txs, MonthWindow(cal, year, monthIndex)), Expense), Amount)
    ensures b.balance == b.income - b.expenses
  {
    var ym := NormalizeMonth(year, monthIndex);
    var inMonth := Dated(txs, MonthWindow(cal, year, monthIndex));
    var income := SumOf(OfType(inMonth, Income), Amount);
    var expenses := SumOf(OfType(inMonth, Expense), Amount);
    MonthData(ym.0, ym.1, income, expenses, income - expenses)
  }

  /**
   * The loop `for (let i = 5; i >= 0; i--)`: six months, oldest first, the k-th of them
   * month `currentMonth - 5 + k`.
   */
  method MonthlyData(txs: seq<Transaction>, cal: Calendar, currentYear: int, currentMonth: int)
    returns (data: seq<MonthData>)
    ensures |data| == 6
    ensures forall k :: 0 <= k < 6 ==> data[k] == Bucket(txs, cal, currentYear, currentMonth - 5 + k)
  {
    ghost var monthAt := k => Bucket(txs, cal, currentYear, currentMonth - 5 + k);
    data := [];
    var i := 5;
    while i >= 0
      invariant -1 <= i <= 5
      invariant |data| == 5 - i
      invariant forall k :: 0 <= k < |data| ==> data[k] == monthAt(k)
    {
      var month := Bucket(txs, cal, currentYear, currentMonth - i);
      assert month == monthAt(5 - i);
      AppendNext(data, month, monthAt);
      data := data + [month];
      i := i - 1;
    }
  }

  /** Appending the entry for the next position keeps a prefix of `at` a prefix. */
  lemma AppendNext<T>(s: seq<T>, x: T, at: int -> T)
    requires forall k :: 0 <= k < |s| ==> s[k] == at(k)
    requires x == at(|s|)
    ensures forall k :: 0 <= k < |s| + 1 ==> (s + [x])[k] == at(k)
  {
  }

  /** Six buckets taken at consecutive month indices name consecutive calendar months. */
  lemma BucketsConsecutive(data: seq<MonthData>, txs: seq<Transaction>, cal: Calendar, currentYear: int, currentMonth: int)
    requires |data| == 6
    requires forall k :: 0 <= k < 6 ==> data[k] == Bucket(txs, cal, currentYear, currentMonth - 5 + k)
    ensures forall k :: 0 <= k < 5 ==>
      data[k + 1].year * 12 + data[k + 1].monthIndex == data[k].year * 12 + data[k].monthIndex + 1
    ensures (data[5].year, data[5].monthIndex) == NormalizeMonth(currentYear, currentMonth)
  {
    forall k | 0 <= k < 5
      ensures data[k + 1].year * 12 + data[k + 1].monthIndex == data[k].year * 12 + data[k].monthIndex + 1
    {
      NextMonth(currentYear, currentMonth - 5 + k);
    }
  }

  /** The month index after `monthIndex` names the next calendar month. */
  lemma NextMonth(year: int, monthIndex: int)
    ensures var a, b := NormalizeMonth(year, monthIndex), NormalizeMonth(year, monthIndex + 1);
      b.0 * 12 + b.1 == a.0 * 12 + a.1 + 1
  {
  }

  /** The sum of the months' expenses. */
  function TotalExpenses(data: seq<MonthData>): real
    decreases |data|
  {
    if data == [] then 0.0 else TotalExpenses(data[..|data| - 1]) + data[|data| - 1].expenses
  }

  /** `totalExpenses / monthlyData.length`. */
  function AverageExpenses(data: seq<MonthData>): (r: Ext)
    ensures data != [] ==> r.Fin? && r.v * |data| as real == TotalExpenses(data)
  {
    Div(TotalExpenses(data), |data| as real)
  }

  /** The current month's expense transactions (`type: 'expense'` and a date inside the month). */
  function CurrentExpenses(txs: seq<Transaction>, cal: Calendar, currentYear: int, currentMonth: int): (r: seq<Transaction>)
    ensures forall t :: t in r <==>
      t in txs && t.kind == Expense && InWindow(t.date, MonthWindow(cal, currentYear, currentMonth))
  {
    OfType(Dated(txs, MonthWindow(cal, currentYear, currentMonth)), Expense)
  }

  // ---------------------------------------------------------------------------
  // The top category
  // ---------------------------------------------------------------------------

  /** `le` of the comparator `([, a], [, b]) => b - a`: larger totals first. */
  function ByAmountDesc(a: (string, real), b: (string, real)): bool
  {
    a.1 >= b.1
  }

  lemma ByAmountDescTotal()
    ensures TotalPreorder(ByAmountDesc)
  {
  }

  /** `Object.entries(totals).sort(...)[0]`, or none for an empty object. */
  function TopCategory(totals: Totals): (r: Option<(string, real)>)
    ensures r.None? <==> totals == []
  {
    var sorted := InsertionSort(totals, ByAmountDesc);
    if sorted == [] then None else Some(sorted[0])
  }

  /** The position of the first entry carrying value `v`. */
  function FirstWithValue(m: Totals, v: real): (k: nat)
    requires exists i :: 0 <= i < |m| && m[i].1 == v
    ensures k < |m| && m[k].1 == v
    ensures forall i :: 0 <= i < k ==> m[i].1 != v
    decreases |m|
  {
    if m[0].1 == v then 0
    else
      var i :| 0 <= i < |m| && m[i].1 == v;
      assert m[1..][i - 1].1 == v;
      1 + FirstWithValue(m[1..], v)
  }

  /**
   * The top entry is one of the totals, no total exceeds it, and it is the first entry
   * with the largest total: the sort is stable, so ties keep their order (the insertion
   * order, which is JavaScript's entry order when no name is integer-like).
   */
  lemma TopCategoryIsFirstMax(totals: Totals)
    requires totals != []
    ensures TopCategory(totals).Some?
    ensures TopCategory(totals).value in totals
    ensures forall e :: e in totals ==> e.1 <= TopCategory(totals).value.1
    ensures var top := TopCategory(totals).value;
      exists k :: 0 <= k < |totals| && totals[k] == top && (forall i :: 0 <= i < k ==> totals[i].1 < top.1)
  {
    var sorted := InsertionSort(totals, ByAmountDesc);
    var top := sorted[0];
    ByAmountDescTotal();
    InsertionSortSorted(totals, ByAmountDesc);
    InsertionSortPermutes(totals, ByAmountDesc);
    assert top in multiset(sorted);
    forall e | e in totals
      ensures e.1 <= top.1
    {
      assert e in multiset(sorted);
      var j :| 0 <= j < |sorted| && sorted[j] == e;
      if j > 0 {
        assert ByAmountDesc(sorted[0], sorted[j]);
      }
    }
    var j :| 0 <= j < |totals| && totals[j] == top;
    var k := FirstWithValue(totals, top.1);
    forall i | 0 <= i < k
      ensures !(ByAmountDesc(totals[i], top) && ByAmountDesc(top, totals[i]))
    {
    }
    EquivalentsHead(totals, top, ByAmountDesc, k);
    EquivalentsHead(sorted, top, ByAmountDesc, 0);
    InsertionSortStable(totals, top, ByAmountDesc);
    assert totals[k] == top;
    forall i | 0 <= i < k
      ensures totals[i].1 < top.1
    {
      assert totals[i] in totals;
    }
  }

  /** `categoryTotals`: the current month's expenses per category label, amounts as stored. */
  function CategoryTotals(txs: seq<Transaction>, cats: seq<Category>, cal: Calendar, currentYear: int, currentMonth: int): Totals
  {
    GroupByCategory(CurrentExpenses(txs, cal, currentYear, currentMonth), cats, Amount)
  }

  /** A grouping is empty exactly when there is nothing to group. */
  lemma GroupEmpty(ts: seq<Transaction>, cats: seq<Category>, f: Transaction -> real)
    ensures GroupByCategory(ts, cats, f) == [] <==> ts == []
  {
    if ts != [] {
      GroupKeys(ts, cats, f, CategoryLabel(ts[0], cats));
      assert ts[0] in ts;
    }
  }

  /** There is a top category exactly when the current month has an expense. */
  lemma TopCategoryExistsIffExpenses(txs: seq<Transaction>, cats: seq<Category>, cal: Calendar, currentYear: int, currentMonth: int)
    ensures TopCategory(CategoryTotals(txs, cats, cal, currentYear, currentMonth)).Some? <==>
      exists t :: t in txs && t.kind == Expense && InWindow(t.date, MonthWindow(cal, currentYear, currentMonth))
  {
    var current := CurrentExpenses(txs, cal, currentYear, currentMonth);
    GroupEmpty(current, cats, Amount);
    if current != [] {
      assert current[0] in current;
    }
  }

  /** `insights`: always two lines; the second names the top category when there is one. */
  function InsightLines(average: Ext, top: Option<(string, real)>): (r: seq<Insight>)
    ensures |r| == 2 && r[0] == AverageLine(average)
    ensures r[1] == NoTransactions <==> top.None?
    ensures top.Some? ==> r[1] == TopCategoryLine(top.value.0, top.value.1)
  {
    [AverageLine(average),
     if top.Some? then TopCategoryLine(top.value.0, top.value.1) else NoTransactions]
  }

  /** `getInsights` for the month `currentMonth` (0-based) of `currentYear`. */
  method GetInsights(txs: seq<Transaction>, cats: seq<Category>, cal: Calendar, currentYear: int, currentMonth: int)
    returns (r: Report)
    ensures |r.monthlyData| == 6
    ensures forall k :: 0 <= k < 6 ==> r.monthlyData[k] == Bucket(txs, cal, currentYear, currentMonth - 5 + k)
    ensures r.averageExpenses.Fin? && r.averageExpenses.v * 6.0 == TotalExpenses(r.monthlyData)
    ensures r.topCategory == TopCategory(CategoryTotals(txs, cats, cal, currentYear, currentMonth))
    ensures r.insights == InsightLines(r.averageExpenses, r.topCategory)
  {
    var data := MonthlyData(txs, cal, currentYear, currentMonth);
    var average := AverageExpenses(data);
    var top := TopCategory(CategoryTotals(txs, cats, cal, currentYear, currentMonth));
    r := Report(data, average, top, InsightLines(average, top));
  }

  // ---------------------------------------------------------------------------
  // The sign of the expenses
  // ---------------------------------------------------------------------------

  /**
   * The monthly figures keep the stored sign of expenses, so a month's expense figure is
   * minus what was spent and its balance is what was earned PLUS what was spent.
   */
  lemma MonthBalanceAddsSpending(txs: seq<Transaction>, cal: Calendar, year: int, monthIndex: int)
    requires AllSignNormalised(txs)
    ensures var b := Bucket(txs, cal, year, monthIndex);
      var inMonth := Dated(txs, MonthWindow(cal, year, monthIndex));
      && b.expenses <= 0.0
      && b.balance == SumOf(OfType(inMonth, Income), AbsAmount) + SumOf(OfType(inMonth, Expense), AbsAmount)
  {
    var inMonth := Dated(txs, MonthWindow(cal, year, monthIndex));
    assert AllSignNormalised(inMonth);
    SignedTypeSums(inMonth);
  }

  /** The intended monthly figures: expenses as money spent, the balance what is left. */
  function BucketBySpend(txs: seq<Transaction>, cal: Calendar, year: int, monthIndex: int): (b: MonthData)
    ensures (b.year, b.monthIndex) == NormalizeMonth(year, monthIndex)
    ensures b.expenses >= 0.0
    ensures b.balance == b.income - b.expenses
  {
    var ym := NormalizeMonth(year, monthIndex);
    var inMonth := Dated(txs, MonthWindow(cal, year, monthIndex));
    var income := SumOf(OfType(inMonth, Income), Amount);
    var expenses := SumOf(OfType(inMonth, Expense), AbsAmount);
    SumOfAbsNonNegative(OfType(inMonth, Expense));
    MonthData(ym.0, ym.1, income, expenses, income - expenses)
  }

  /** Under the sign rule, the intended figures are the transaction summary of that month. */
  lemma BucketBySpendIsSummary(txs: seq<Transaction>, cats: seq<Category>, cal: Calendar, year: int, monthIndex: int)
    requires AllSignNormalised(txs)
    ensures var b := BucketBySpend(txs, cal, year, monthIndex);
      var s := Summarize(Dated(txs, MonthWindow(cal, year, monthIndex)), cats);
      b.income == s.income && b.expenses == s.expenses && b.balance == s.balance
  {
    var inMonth := Dated(txs, MonthWindow(cal, year, monthIndex));
    assert AllSignNormalised(inMonth);
    SignedTypeSums(inMonth);
  }

  /** Under the sign rule every signed category total is at most zero. */
  lemma SignedTotalsNonPositive(ts: seq<Transaction>, cats: seq<Category>)
    requires forall t :: t in ts ==> t.amount <= 0.0
    ensures forall e :: e in GroupByCategory(ts, cats, Amount) ==> e.1 <= 0.0
  {
    var g := GroupByCategory(ts, cats, Amount);
    GroupDistinct(ts, cats, Amount);
    forall e | e in g
      ensures e.1 <= 0.0
    {
      var i :| 0 <= i < |g| && g[i] == e;
      ValueOfEntry(g, i);
      GroupValue(ts, cats, Amount, e.0);
      var l := Labelled(ts, cats, e.0);
      SumOfNonPositive(l);
      SumOfAbsNonNegative(l);
    }
  }

  /** In a table without repeated names, the value under an entry's name is that entry's value. */
  lemma {:induction false} ValueOfEntry(m: Totals, i: int)
    requires DistinctKeys(m) && 0 <= i < |m|
    ensures ValueOf(m, m[i].0) == m[i].1
    decreases |m|
  {
    if i > 0 {
      ValueOfEntry(m[1..], i - 1);
      if m[0].0 == m[i].0 {
        HasKeyAt(m[1..], i - 1);
        assert false;
      }
    }
  }

  lemma {:induction false} HasKeyAt(m: Totals, i: int)
    requires 0 <= i < |m|
    ensures HasKey(m, m[i].0)
    decreases |m|
  {
    if i > 0 {
      HasKeyAt(m[1..], i - 1);
    }
  }

  /**
   * With expenses stored negative, the "largest" category total is the one closest to
   * zero: the top category is the one with the LEAST spending.
   */
  lemma TopCategoryIsLeastSpent(txs: seq<Transaction>, cats: seq<Category>, cal: Calendar, currentYear: int, currentMonth: int)
    requires AllSignNormalised(txs)
    ensures var totals := CategoryTotals(txs, cats, cal, currentYear, currentMonth);
      TopCategory(totals).Some? ==>
        forall e :: e in totals ==> Abs(TopCategory(totals).value.1) <= Abs(e.1)
  {
    var current := CurrentExpenses(txs, cal, currentYear, currentMonth);
    var totals := CategoryTotals(txs, cats, cal, currentYear, currentMonth);
    SignedTotalsNonPositive(current, cats);
    if totals != [] {
      TopCategoryIsFirstMax(totals);
    }
  }

  /** 1000 spent on rent and 50 on leisure: leisure is reported as the largest category. */
  lemma LeastSpentExample()
    ensures TopCategory([("Aluguel", -1000.0), ("Lazer", -50.0)]) == Some(("Lazer", -50.0))
  {
    var totals := [("Aluguel", -1000.0), ("Lazer", -50.0)];
    TopCategoryIsFirstMax(totals);
    assert totals[1] in totals;
  }

  /** The intended top category: the largest spending, counted in magnitudes. */
  function TopCategoryBySpend(txs: seq<Transaction>, cats: seq<Category>, cal: Calendar, currentYear: int, currentMonth: int)
    : Option<(string, real)>
  {
    TopCategory(GroupByCategory(CurrentExpenses(txs, cal, currentYear, currentMonth), cats, AbsAmount))
  }

  /** The intended top category spends at least as much as every category of the month. */
  lemma TopCategoryBySpendIsLargest(txs: seq<Transaction>, cats: seq<Category>, cal: Calendar, currentYear: int, currentMonth: int)
    ensures var spend := GroupByCategory(CurrentExpenses(txs, cal, currentYear, currentMonth), cats, AbsAmount);
      var top := TopCategoryBySpend(txs, cats, cal, currentYear, currentMonth);
      && (top.None? <==> spend == [])
      && (top.Some? ==> top.value in spend && forall e :: e in spend ==> e.1 <= top.value.1)
  {
    var spend := GroupByCategory(CurrentExpenses(txs, cal, currentYear, currentMonth), cats, AbsAmount);
    if spend != [] {
      TopCategoryIsFirstMax(spend);
    }
  }

  /** On the same month, rent is reported. */
  lemma LargestSpentExample()
    ensures TopCategory([("Aluguel", 1000.0), ("Lazer", 50.0)]) == Some(("Aluguel", 1000.0))
  {
    var totals := [("Aluguel", 1000.0), ("Lazer", 50.0)];
    TopCategoryIsFirstMax(totals);
    assert totals[0] in totals;
  }
}
