/**
 * The budget table. Reading the budgets recomputes each one's `spent` from the expense
 * transactions of its category recorded in its month, and saves it.
 */
module Budgets {
  import opened Base
  import opened Ledger

  datatype Budget = Budget(id: int, categoryId: int, amount: real, spent: real, month: int, year: int)

  function BudgetId(b: Budget): int
  {
    b.id
  }

  /**
   * The rows `Transaction.sum` adds up for a budget: its category, type expense, and
   * `createdAt` within `new Date(year, month - 1, 1)` .. `new Date(year, month, 0)`.
   */
  function CountedRows(b: Budget, txs: seq<Transaction>, cal: Calendar): (r: seq<Transaction>)
    ensures forall t :: t in r <==>
      t in txs && t.categoryId == Some(b.categoryId) && t.kind == Expense
      && InWindow(t.createdAt, MonthWindow(cal, b.year, b.month - 1))
    decreases |txs|
  {
    if txs == [] then []
    else
      var t := txs[|txs| - 1];
      CountedRows(b, txs[..|txs| - 1], cal)
        + (if t.categoryId == Some(b.categoryId) && t.kind == Expense
              && InWindow(t.createdAt, MonthWindow(cal, b.year, b.month - 1))
           then [t] else [])
  }

  /** `Math.abs(sum || 0)` over the counted rows. */
  function SpentFor(b: Budget, txs: seq<Transaction>, cal: Calendar): (r: real)
    ensures r >= 0.0
  {
    Abs(SumOf(CountedRows(b, txs, cal), Amount))
  }

  /** With expenses stored negative, `spent` is the total magnitude of the counted expenses. */
  lemma SpentIsExpenseMagnitude(b: Budget, txs: seq<Transaction>, cal: Calendar)
    requires AllSignNormalised(txs)
    ensures SpentFor(b, txs, cal) == SumOf(CountedRows(b, txs, cal), AbsAmount)
  {
    var rows := CountedRows(b, txs, cal);
    SumOfNonPositive(rows);
    SumOfAbsNonNegative(rows);
  }

  /** The budget as the read handler saves it: `spent` overwritten, every other field kept. */
  function Refreshed(b: Budget, txs: seq<Transaction>, cal: Calendar): (r: Budget)
    ensures r.id == b.id && r.categoryId == b.categoryId && r.amount == b.amount
    ensures r.month == b.month && r.year == b.year
  {
    b.(spent := SpentFor(b, txs, cal))
  }

  /** The previous `spent` plays no part: refreshing twice is refreshing once. */
  lemma RefreshIdempotent(b: Budget, txs: seq<Transaction>, cal: Calendar)
    ensures Refreshed(Refreshed(b, txs, cal), txs, cal) == Refreshed(b, txs, cal)
    ensures forall s: real :: Refreshed(b.(spent := s), txs, cal) == Refreshed(b, txs, cal)
  {
    var r := Refreshed(b, txs, cal);
    assert CountedRows(r, txs, cal) == CountedRows(b, txs, cal) by {
      assert r.categoryId == b.categoryId && r.month == b.month && r.year == b.year;
      CountedRowsDependOnKey(b, r, txs, cal);
    }
    forall s: real ensures Refreshed(b.(spent := s), txs, cal) == Refreshed(b, txs, cal) {
      CountedRowsDependOnKey(b, b.(spent := s), txs, cal);
    }
  }

  lemma {:induction false} CountedRowsDependOnKey(a: Budget, b: Budget, txs: seq<Transaction>, cal: Calendar)
    requires a.categoryId == b.categoryId && a.month == b.month && a.year == b.year
    ensures CountedRows(a, txs, cal) == CountedRows(b, txs, cal)
    decreases |txs|
  {
    if txs != [] {
      CountedRowsDependOnKey(a, b, txs[..|txs| - 1], cal);
    }
  }

  /** The query filters: `month` and `year` apply only when given. */
  predicate Selected(b: Budget, month: Option<int>, year: Option<int>)
  {
    (month.Some? ==> b.month == month.value) && (year.Some? ==> b.year == year.value)
  }

  /** What the read handler answers for the stored rows `s`: the selected budgets, refreshed, in stored order. */
  function Listed(s: seq<Budget>, month: Option<int>, year: Option<int>, txs: seq<Transaction>, cal: Calendar): (r: seq<Budget>)
    ensures |r| <= |s|
    decreases |s|
  {
    if s == [] then []
    else
      var last := s[|s| - 1];
      var rest := Listed(s[..|s| - 1], month, year, txs, cal);
      if Selected(last, month, year) then rest + [Refreshed(last, txs, cal)]
      else rest
  }

  /** Every listed budget passes the month and year filters and carries its recomputed `spent`. */
  lemma {:induction false} ListedAreRefreshed(s: seq<Budget>, month: Option<int>, year: Option<int>, txs: seq<Transaction>, cal: Calendar)
    ensures forall x :: x in Listed(s, month, year, txs, cal) ==> Selected(x, month, year) && x.spent == SpentFor(x, txs, cal)
    decreases |s|
  {
    if s != [] {
      var last := s[|s| - 1];
      ListedAreRefreshed(s[..|s| - 1], month, year, txs, cal);
      RefreshIdempotent(last, txs, cal);
    }
  }

  /** A stored row after the read handler: refreshed when selected, untouched otherwise. */
  function AsSaved(b: Budget, month: Option<int>, year: Option<int>, txs: seq<Transaction>, cal: Calendar): Budget
  {
    if Selected(b, month, year) then Refreshed(b, txs, cal) else b
  }

  /** One more stored row adds its refreshed copy to the answer exactly when it is selected. */
  lemma ListedStep(s: seq<Budget>, i: nat, month: Option<int>, year: Option<int>, txs: seq<Transaction>, cal: Calendar)
    requires i < |s|
    ensures Listed(s[..i + 1], month, year, txs, cal) ==
      Listed(s[..i], month, year, txs, cal) + (if Selected(s[i], month, year) then [Refreshed(s[i], txs, cal)] else [])
  {
    assert s[..i + 1][..i] == s[..i];
  }

  /** The fields a request body may carry to `update`. */
  datatype BudgetPatch = BudgetPatch(
    categoryId: Option<int>,
    amount: Option<real>,
    spent: Option<real>,
    month: Option<int>,
    year: Option<int>)

  function Patched(b: Budget, p: BudgetPatch): (r: Budget)
    ensures r.id == b.id
    ensures p == BudgetPatch(None, None, None, None, None) ==> r == b
    ensures p.categoryId.Some? ==> r.categoryId == p.categoryId.value
    ensures p.categoryId.None? ==> r.categoryId == b.categoryId
    ensures p.amount.Some? ==> r.amount == p.amount.value
    ensures p.amount.None? ==> r.amount == b.amount
    ensures p.spent.Some? ==> r.spent == p.spent.value
    ensures p.spent.None? ==> r.spent == b.spent
    ensures p.month.Some? ==> r.month == p.month.value
    ensures p.month.None? ==> r.month == b.month
    ensures p.year.Some? ==> r.year == p.year.value
    ensures p.year.None? ==> r.year == b.year
  {
    Budget(b.id,
      if p.categoryId.Some? then p.categoryId.value else b.categoryId,
      if p.amount.Some? then p.amount.value else b.amount,
      if p.spent.Some? then p.spent.value else b.spent,
      if p.month.Some? then p.month.value else b.month,
      if p.year.Some? then p.year.value else b.year)
  }

  /** The stored budgets, in insertion order. */
  class BudgetTable {
    var rows: seq<Budget>

    ghost predicate Valid()
      reads this
    {
      DistinctIds(rows, BudgetId)
    }

    constructor ()
      ensures Valid() && rows == []
    {
      rows := [];
    }

    /**
     * `getAll`: each selected budget gets its `spent` recomputed and saved; the selected
     * budgets are returned, other rows are left alone.
     */
    method GetAll(month: Option<int>, year: Option<int>, txs: seq<Transaction>, cal: Calendar)
      returns (r: seq<Budget>)
      requires Valid()
      modifies this
      ensures Valid()
      ensures |rows| == |old(rows)|
      ensures forall k :: 0 <= k < |rows| ==> rows[k] == AsSaved(old(rows)[k], month, year, txs, cal)
      ensures r == Listed(old(rows), month, year, txs, cal)
    {
      ghost var before := rows;
      r := [];
      var i := 0;
      while i < |rows|
        invariant 0 <= i <= |rows| == |before|
        invariant Valid()
        invariant forall k :: 0 <= k < i ==> rows[k] == AsSaved(before[k], month, year, txs, cal)
        invariant forall k :: i <= k < |rows| ==> rows[k] == before[k]
        invariant r == Listed(before[..i], month, year, txs, cal)
      {
        ListedStep(before, i, month, year, txs, cal);
        ghost var prev := rows;
        var saved := RefreshRow(i, month, year, txs, cal);
        forall k | 0 <= k < i + 1
          ensures rows[k] == AsSaved(before[k], month, year, txs, cal)
        {
          if k < i {
            assert rows[k] == prev[k];
          }
        }
        r := r + saved;
        i := i + 1;
      }
      assert before[..i] == before;
    }

    /**
     * One pass of the loop in `getAll`: a selected row gets its `spent` recomputed and
     * saved (`budget.spent = ...` then `budget.save()`) and is answered; any other row is skipped.
     */
    method RefreshRow(i: nat, month: Option<int>, year: Option<int>, txs: seq<Transaction>, cal: Calendar)
      returns (saved: seq<Budget>)
      requires Valid() && i < |rows|
      modifies this
      ensures Valid()
      ensures rows == old(rows)[i := AsSaved(old(rows)[i], month, year, txs, cal)]
      ensures saved == if Selected(old(rows)[i], month, year) then [Refreshed(old(rows)[i], txs, cal)] else []
    {
      var b := rows[i];
      saved := [];
      if Selected(b, month, year) {
        b := b.(spent := SpentFor(b, txs, cal));
        ReplaceDistinct(rows, BudgetId, i, b);
        rows := rows[i := b];
        saved := [b];
      }
    }

    /** `update`: not-found when no row has the id, otherwise that row patched. */
    method Update(id: int, p: BudgetPatch) returns (r: Result<Budget, NotFound>)
      requires Valid()
      modifies this
      ensures Valid()
      ensures IndexOfId(old(rows), BudgetId, id).None? ==> r == Err(NotFound) && rows == old(rows)
      ensures IndexOfId(old(rows), BudgetId, id).Some? ==>
        var i := IndexOfId(old(rows), BudgetId, id).value;
        r == Ok(Patched(old(rows)[i], p)) && rows == old(rows)[i := r.value]
    {
      var found := IndexOfId(rows, BudgetId, id);
      if found.None? {
        return Err(NotFound);
      }
      var i := found.value;
      var b := Patched(rows[i], p);
      ReplaceDistinct(rows, BudgetId, i, b);
      rows := rows[i := b];
      r := Ok(b);
    }

    /** `delete`: not-found when no row has the id, otherwise that row removed. */
    method Delete(id: int) returns (r: Result<(), NotFound>)
      requires Valid()
      modifies this
      ensures Valid()
      ensures IndexOfId(old(rows), BudgetId, id).None? ==> r == Err(NotFound) && rows == old(rows)
      ensures IndexOfId(old(rows), BudgetId, id).Some? ==>
        r == Ok(()) && rows == RemoveAt(old(rows), IndexOfId(old(rows), BudgetId, id).value)
      ensures forall k :: 0 <= k < |rows| ==> rows[k].id != id
    {
      var found := IndexOfId(rows, BudgetId, id);
      if found.None? {
        return Err(NotFound);
      }
      RemoveDistinct(rows, BudgetId, found.value);
      rows := RemoveAt(rows, found.value);
      r := Ok(());
    }
  }

  // ---------------------------------------------------------------------------
  // The month window of `spent`
  // ---------------------------------------------------------------------------

  /**
   * A recording instant one millisecond into the last day of the budget month: the
   * window ends at midnight starting that day, so an expense recorded then is counted
   * in no month's `spent`, neither this one nor the next.
   */
  lemma LastDayExpenseNotCounted(b: Budget, cal: Calendar, t: Transaction)
    requires t.categoryId == Some(b.categoryId) && t.kind == Expense && t.amount == -50.0
    requires MonthWindow(cal, b.year, b.month - 1).start <= MonthWindow(cal, b.year, b.month - 1).end
    requires t.createdAt == MonthWindow(cal, b.year, b.month - 1).end + 1
    requires t.createdAt < MonthWindow(cal, b.year, b.month).start
    ensures SpentFor(b, [t], cal) == 0.0
    ensures SpentFor(b.(month := b.month + 1), [t], cal) == 0.0
    ensures SpentInMonth(b, [t], cal) == 50.0
  {
    assert [t][..0] == [];
    var w := MonthWindow(cal, b.year, b.month - 1);
    assert !InWindow(t.createdAt, w);
    assert CountedRows(b, [t], cal) == [];
    assert CountedRows(b.(month := b.month + 1), [t], cal) == [];
    assert InMonth(t.createdAt, cal, b.year, b.month - 1);
    assert CountedInMonth(b, [t], cal) == [t];
  }

  /**
   * The month as a half-open span: from its first midnight up to, not including, the
   * first midnight of the next month.
   */
  predicate InMonth(instant: int, cal: Calendar, year: int, monthIndex: int)
  {
    MonthWindow(cal, year, monthIndex).start <= instant < MonthWindow(cal, year, monthIndex + 1).start
  }

  /** The corrected selection: the budget's category, type expense, recorded within the month span. */
  function CountedInMonth(b: Budget, txs: seq<Transaction>, cal: Calendar): (r: seq<Transaction>)
    ensures forall t :: t in r <==>
      t in txs && t.categoryId == Some(b.categoryId) && t.kind == Expense && InMonth(t.createdAt, cal, b.year, b.month - 1)
    decreases |txs|
  {
    if txs == [] then []
    else
      var t := txs[|txs| - 1];
      CountedInMonth(b, txs[..|txs| - 1], cal)
        + (if t.categoryId == Some(b.categoryId) && t.kind == Expense && InMonth(t.createdAt, cal, b.year, b.month - 1)
           then [t] else [])
  }

  /** `spent` computed over the month span instead of the window ending at the last midnight. */
  function SpentInMonth(b: Budget, txs: seq<Transaction>, cal: Calendar): (r: real)
    ensures r >= 0.0
  {
    Abs(SumOf(CountedInMonth(b, txs, cal), Amount))
  }

  /**
   * The spans of consecutive months meet without gap or overlap: an instant from the
   * start of one month to the start of the month after next lies in exactly one of the two.
   */
  lemma MonthSpansTile(cal: Calendar, year: int, monthIndex: int, instant: int)
    requires MonthWindow(cal, year, monthIndex).start <= MonthWindow(cal, year, monthIndex + 1).start
    requires MonthWindow(cal, year, monthIndex + 1).start <= MonthWindow(cal, year, monthIndex + 2).start
    requires MonthWindow(cal, year, monthIndex).start <= instant < MonthWindow(cal, year, monthIndex + 2).start
    ensures InMonth(instant, cal, year, monthIndex) != InMonth(instant, cal, year, monthIndex + 1)
  {
    assert monthIndex + 1 + 1 == monthIndex + 2;
  }

  /**
   * With the corrected spans, an expense of the budget's category recorded from the start
   * of the budget month to the start of the month after next is counted by exactly one
   * of the budgets for that month and the next, and its magnitude is spent exactly once.
   */
  lemma {:induction false} ExpenseCountedOnce(b: Budget, txs: seq<Transaction>, cal: Calendar, t: Transaction)
    requires t in txs && t.categoryId == Some(b.categoryId) && t.kind == Expense
    requires MonthWindow(cal, b.year, b.month - 1).start <= MonthWindow(cal, b.year, b.month).start
    requires MonthWindow(cal, b.year, b.month).start <= MonthWindow(cal, b.year, b.month + 1).start
    requires MonthWindow(cal, b.year, b.month - 1).start <= t.createdAt < MonthWindow(cal, b.year, b.month + 1).start
    ensures (t in CountedInMonth(b, txs, cal)) != (t in CountedInMonth(b.(month := b.month + 1), txs, cal))
    ensures SpentInMonth(b, [t], cal) + SpentInMonth(b.(month := b.month + 1), [t], cal) == Abs(t.amount)
  {
    var m := b.month - 1;
    assert m + 1 == b.month && m + 2 == b.month + 1;
    MonthSpansTile(cal, b.year, m, t.createdAt);
    var inFirst := InMonth(t.createdAt, cal, b.year, m);
    CountedOnce(b, txs, cal, t, inFirst);
    SpentOnce(b, cal, t, inFirst);
  }

  /** Which of the budgets for a month and the next counts one expense. */
  lemma CountedOnce(b: Budget, txs: seq<Transaction>, cal: Calendar, t: Transaction, inFirst: bool)
    requires t in txs && t.categoryId == Some(b.categoryId) && t.kind == Expense
    requires inFirst == InMonth(t.createdAt, cal, b.year, b.month - 1)
    requires inFirst != InMonth(t.createdAt, cal, b.year, b.month)
    ensures (t in CountedInMonth(b, txs, cal)) != (t in CountedInMonth(b.(month := b.month + 1), txs, cal))
  {
    var next := b.(month := b.month + 1);
    assert next.month - 1 == b.month && next.year == b.year && next.categoryId == b.categoryId;
    assert t in CountedInMonth(next, txs, cal) <==> InMonth(t.createdAt, cal, b.year, b.month);
  }

  /** The spent amounts of one expense under the budgets for a month and the next. */
  lemma SpentOnce(b: Budget, cal: Calendar, t: Transaction, inFirst: bool)
    requires t.categoryId == Some(b.categoryId) && t.kind == Expense
    requires inFirst == InMonth(t.createdAt, cal, b.year, b.month - 1)
    requires inFirst != InMonth(t.createdAt, cal, b.year, b.month)
    ensures SpentInMonth(b, [t], cal) + SpentInMonth(b.(month := b.month + 1), [t], cal) == Abs(t.amount)
  {
    var next := b.(month := b.month + 1);
    assert next.month - 1 == b.month;
    assert [t][..0] == [];
    if inFirst {
      assert CountedInMonth(b, [t], cal) == [t];
      assert CountedInMonth(next, [t], cal) == [];
    } else {
      assert CountedInMonth(b, [t], cal) == [];
      assert CountedInMonth(next, [t], cal) == [t];
    }
  }
}
