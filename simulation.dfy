/**
 * The purchase simulator: from the last three months of transactions it derives a
 * monthly income, expense and saving figure, decides whether a target amount can be
 * saved in the given number of months, and writes one or two recommendations.
 */
module Simulation {
  import opened Base
  import opened Ledger
  import opened Transactions

  /** The recommendation lines, as the figures they are written from. */
  datatype Recommendation =
    | Viable                          // 'Objetivo viável! ...'
    | SaveMore(deficit: Ext)          // 'Você precisa economizar mais R$ ... por mês.'
    | ReduceSpending(percentage: Ext) // 'Reduza seus gastos em ...%'
    | ReviewSpending(percentage: Ext) // 'Será necessário reduzir gastos em ...%'
    | TooAmbitious                    // 'Meta muito ambiciosa. ...'

  /** The stored simulation row plus the extra figures of the response. */
  datatype Outcome = Outcome(
    name: string,
    targetAmount: real,
    targetMonths: int,
    monthlyIncome: real,
    monthlyExpenses: real,
    monthlySavings: real,
    isViable: bool,
    totalSavings: real,
    neededMonthlySavings: Ext,
    surplus: Ext,
    adjustedMonths: Option<int>,
    recommendations: seq<Recommendation>)

  /** The transactions dated on or after `since` (three months before now). */
  function Recent(txs: seq<Transaction>, since: int): (r: seq<Transaction>)
    ensures forall t :: t in r <==> t in txs && t.date >= since
    decreases |txs|
  {
    if txs == [] then []
    else
      var rest := Recent(txs[..|txs| - 1], since);
      var t := txs[|txs| - 1];
      assert txs == txs[..|txs| - 1] + [t];
      if t.date >= since then rest + [t] else rest
  }

  /** `s - q` for a finite `s`. */
  function MinusFrom(s: real, q: Ext): Ext
  {
    Neg(Minus(q, s))
  }

  /**
   * `generateRecommendations(monthlySavings, neededSavings, monthlyExpenses)`: success
   * when the savings reach the need, otherwise the deficit and one tier chosen by the
   * share of monthly expenses it represents.
   */
  function Recommend(savings: real, needed: Ext, expenses: real): (r: seq<Recommendation>)
    ensures r == [Viable] <==> Le(needed, savings)
    ensures !Le(needed, savings) ==> |r| == 2 && r[0] == SaveMore(Minus(needed, savings))
    ensures !Le(needed, savings) ==> r[1].ReduceSpending? || r[1].ReviewSpending? || r[1].TooAmbitious?
  {
    if Le(needed, savings) then [Viable]
    else
      var deficit := Minus(needed, savings);
      var reduction := Scale(DivBy(deficit, expenses), 100.0);
      [SaveMore(deficit),
       if Le(reduction, 10.0) then ReduceSpending(reduction)
       else if Le(reduction, 25.0) then ReviewSpending(reduction)
       else TooAmbitious]
  }

  /**
   * `create`: income and expense averages over three months of the amounts as stored
   * (expenses included with their sign), then the viability figures.
   */
  function Simulate(name: string, targetAmount: real, targetMonths: int, txs: seq<Transaction>, since: int): (o: Outcome)
    ensures o.monthlyIncome * 3.0 == SumOf(OfType(Recent(txs, since), Income), Amount)
    ensures o.monthlyExpenses * 3.0 == SumOf(OfType(Recent(txs, since), Expense), Amount)
    ensures Planned(o)
  {
    var recent := Recent(txs, since);
    Plan(name, targetAmount, targetMonths,
      SumOf(OfType(recent, Income), Amount) / 3.0, SumOf(OfType(recent, Expense), Amount) / 3.0)
  }

  /** The figures of a simulation follow from its monthly income and expenses and its target. */
  ghost predicate Planned(o: Outcome)
  {
    && o.monthlySavings == o.monthlyIncome - o.monthlyExpenses
    && o.totalSavings == o.monthlySavings * o.targetMonths as real
    && (o.isViable <==> o.totalSavings >= o.targetAmount)
    && (o.targetMonths != 0 ==>
          o.neededMonthlySavings.Fin? && o.neededMonthlySavings.v * o.targetMonths as real == o.targetAmount)
    && (o.targetMonths == 0 ==> o.neededMonthlySavings == Div(o.targetAmount, 0.0))
    && (o.neededMonthlySavings.Fin? ==> o.surplus == Fin(o.monthlySavings - o.neededMonthlySavings.v))
    && (o.monthlySavings <= 0.0 ==> o.adjustedMonths.None?)
    && (o.monthlySavings > 0.0 ==>
          && o.adjustedMonths.Some?
          && o.adjustedMonths.value as real * o.monthlySavings >= o.targetAmount
          && (o.adjustedMonths.value - 1) as real * o.monthlySavings < o.targetAmount)
    && o.recommendations == Recommend(o.monthlySavings, o.neededMonthlySavings, o.monthlyExpenses)
  }

  /** The figures computed from the monthly averages, whichever way those were taken. */
  function Plan(name: string, targetAmount: real, targetMonths: int, monthlyIncome: real, monthlyExpenses: real): (o: Outcome)
    ensures o.name == name && o.targetAmount == targetAmount && o.targetMonths == targetMonths
    ensures o.monthlyIncome == monthlyIncome && o.monthlyExpenses == monthlyExpenses
    ensures Planned(o)
  {
    var monthlySavings := monthlyIncome - monthlyExpenses;
    var totalSavings := monthlySavings * targetMonths as real;
    var needed := Div(targetAmount, targetMonths as real);
    var adjusted :=
      if monthlySavings > 0.0 then
        AdjustedMonthsLeast(targetAmount, monthlySavings);
        Some(Ceil(targetAmount / monthlySavings))
      else None;
    Outcome(name, targetAmount, targetMonths, monthlyIncome, monthlyExpenses, monthlySavings,
      totalSavings >= targetAmount, totalSavings, needed, MinusFrom(monthlySavings, needed), adjusted,
      Recommend(monthlySavings, needed, monthlyExpenses))
  }

  /** `Math.ceil(target / savings)` is the least whole number of months whose savings reach the target. */
  lemma AdjustedMonthsLeast(target: real, savings: real)
    requires savings > 0.0
    ensures Ceil(target / savings) as real * savings >= target
    ensures (Ceil(target / savings) - 1) as real * savings < target
  {
    var q := target / savings;
    var n := Ceil(q);
    assert q * savings == target;
    MulMono(q, n as real, savings);
    assert (n - 1) as real < q;
    MulStrict((n - 1) as real, q, savings);
    var lower := (n - 1) as real * savings;
    assert lower < q * savings;
    assert lower < target;
  }

  lemma MulMono(a: real, b: real, c: real)
    requires a <= b && c > 0.0
    ensures a * c <= b * c
  {
  }

  lemma MulStrict(a: real, b: real, c: real)
    requires a < b && c > 0.0
    ensures a * c < b * c
  {
  }

  /** With a positive number of months, the result is viable exactly when the success line is chosen. */
  lemma ViableIffSuccess(o: Outcome)
    requires Planned(o) && o.targetMonths > 0
    ensures o.isViable <==> o.recommendations == [Viable]
  {
    var m := o.targetMonths as real;
    var n := o.neededMonthlySavings.v;
    assert n * m == o.targetAmount;
    if n <= o.monthlySavings {
      MulMono(n, o.monthlySavings, m);
    } else {
      MulStrict(o.monthlySavings, n, m);
    }
  }

  /**
   * With a positive number of months and savings short of the need, the deficit line
   * carries a positive amount: the need minus the savings.
   */
  lemma ShortfallIsPositive(o: Outcome)
    requires Planned(o) && o.targetMonths > 0 && !o.isViable
    ensures |o.recommendations| == 2 && o.recommendations[0].SaveMore?
    ensures o.recommendations[0].deficit.Fin? && o.recommendations[0].deficit.v > 0.0
    ensures o.recommendations[0].deficit.v == o.neededMonthlySavings.v - o.monthlySavings
  {
    ViableIffSuccess(o);
  }

  /** With positive monthly expenses, the tier reads as a comparison of the deficit with 10% and 25% of them. */
  lemma RecommendationTiers(savings: real, needed: real, expenses: real)
    requires expenses > 0.0 && needed > savings
    ensures var r := Recommend(savings, Fin(needed), expenses);
      && (r[1].ReduceSpending? <==> (needed - savings) * 100.0 <= 10.0 * expenses)
      && (r[1].ReviewSpending? <==> 10.0 * expenses < (needed - savings) * 100.0 <= 25.0 * expenses)
      && (r[1].TooAmbitious? <==> (needed - savings) * 100.0 > 25.0 * expenses)
  {
    var d := needed - savings;
    PercentAtLeast(d, expenses, 10.0);
    PercentAtLeast(d, expenses, 25.0);
    assert Scale(DivBy(Fin(d), expenses), 100.0) == Percent(d, expenses);
  }

  // ---------------------------------------------------------------------------
  // The sign of the expenses
  // ---------------------------------------------------------------------------

  /**
   * Expenses are stored negative, and the averages keep that sign: the monthly expense
   * figure is minus the money spent, so every expense ADDS to the monthly savings.
   */
  lemma SpendingRaisesSavings(name: string, targetAmount: real, targetMonths: int, txs: seq<Transaction>, since: int)
    requires AllSignNormalised(txs)
    ensures var o := Simulate(name, targetAmount, targetMonths, txs, since);
      var recent := Recent(txs, since);
      && o.monthlyExpenses <= 0.0
      && o.monthlySavings * 3.0
           == SumOf(OfType(recent, Income), AbsAmount) + SumOf(OfType(recent, Expense), AbsAmount)
  {
    var recent := Recent(txs, since);
    assert AllSignNormalised(recent);
    SignedTypeSums(recent);
  }

  /**
   * With a negative expense figure the reduction percentage `(deficit / monthlyExpenses) * 100`
   * is negative, so a shortfall always gets the mildest tier, whatever its size.
   */
  lemma ShortfallGetsMildestTier(o: Outcome)
    requires Planned(o) && o.targetMonths > 0 && !o.isViable && o.monthlyExpenses < 0.0
    ensures o.recommendations[1].ReduceSpending?
    ensures Lt(o.recommendations[1].percentage, 0.0)
  {
    ShortfallIsPositive(o);
    var d := o.recommendations[0].deficit.v;
    assert d / o.monthlyExpenses < 0.0;
  }

  /** The transactions of the example below: 300 earned and 300 spent. */
  function BreakEvenMonth(): seq<Transaction>
  {
    [Transaction(1, "Salario", 300.0, Income, None, 10, 10),
     Transaction(2, "Aluguel", -300.0, Expense, None, 10, 10)]
  }

  /**
   * With 300 earned and 300 spent in the window nothing is left over, yet the savings
   * come out at 200 a month and a target of 600 in 3 months counts as viable; counting
   * the spending as money spent gives savings of 0 and no viability.
   */
  lemma SpendingRaisesSavingsExample()
    ensures Simulate("Carro", 600.0, 3, BreakEvenMonth(), 0).monthlySavings == 200.0
    ensures Simulate("Carro", 600.0, 3, BreakEvenMonth(), 0).isViable
    ensures SimulateByMagnitude("Carro", 600.0, 3, BreakEvenMonth(), 0).monthlySavings == 0.0
    ensures !SimulateByMagnitude("Carro", 600.0, 3, BreakEvenMonth(), 0).isViable
  {
    BreakEvenSums();
    AsWrittenExample(Simulate("Carro", 600.0, 3, BreakEvenMonth(), 0));
    ByMagnitudeExample(SimulateByMagnitude("Carro", 600.0, 3, BreakEvenMonth(), 0));
  }

  lemma AsWrittenExample(o: Outcome)
    requires Planned(o) && o.targetAmount == 600.0 && o.targetMonths == 3
    requires o.monthlyIncome * 3.0 == 300.0 && o.monthlyExpenses * 3.0 == -300.0
    ensures o.monthlySavings == 200.0 && o.isViable
  {
    assert o.monthlySavings == 200.0;
    assert o.totalSavings == 600.0;
  }

  lemma ByMagnitudeExample(o: Outcome)
    requires Planned(o) && o.targetAmount == 600.0 && o.targetMonths == 3
    requires o.monthlyIncome * 3.0 == 300.0 && o.monthlyExpenses * 3.0 == 300.0
    ensures o.monthlySavings == 0.0 && !o.isViable
  {
    assert o.monthlySavings == 0.0;
    assert o.totalSavings == 0.0;
  }

  lemma BreakEvenSums()
    ensures var r := Recent(BreakEvenMonth(), 0);
      && SumOf(OfType(r, Income), Amount) == 300.0
      && SumOf(OfType(r, Expense), Amount) == -300.0
      && SumOf(OfType(r, Expense), AbsAmount) == 300.0
  {
    var txs := BreakEvenMonth();
    BreakEvenRecent();
    BreakEvenTypes();
    assert SumOf([txs[0]], Amount) == 300.0;
    assert SumOf([txs[1]], Amount) == -300.0;
    assert SumOf([txs[1]], AbsAmount) == 300.0;
  }

  lemma BreakEvenRecent()
    ensures Recent(BreakEvenMonth(), 0) == BreakEvenMonth()
  {
    var txs := BreakEvenMonth();
    assert Recent(txs[..1], 0) == txs[..1];
    assert txs[..1] + [txs[1]] == txs;
  }

  lemma BreakEvenTypes()
    ensures OfType(BreakEvenMonth(), Income) == [BreakEvenMonth()[0]]
    ensures OfType(BreakEvenMonth(), Expense) == [BreakEvenMonth()[1]]
  {
    var txs := BreakEvenMonth();
    assert OfType(txs[..1], Income) == [txs[0]];
    assert OfType(txs[..1], Expense) == [];
  }

  /**
   * The intended reading: the expense average counts money spent (magnitudes), so the
   * monthly savings are what is earned minus what is spent.
   */
  function SimulateByMagnitude(name: string, targetAmount: real, targetMonths: int, txs: seq<Transaction>, since: int): (o: Outcome)
    ensures o.monthlyIncome * 3.0 == SumOf(OfType(Recent(txs, since), Income), Amount)
    ensures o.monthlyExpenses * 3.0 == SumOf(OfType(Recent(txs, since), Expense), AbsAmount)
    ensures o.monthlyExpenses >= 0.0
    ensures Planned(o)
  {
    var recent := Recent(txs, since);
    SumOfAbsNonNegative(OfType(recent, Expense));
    Plan(name, targetAmount, targetMonths,
      SumOf(OfType(recent, Income), Amount) / 3.0, SumOf(OfType(recent, Expense), AbsAmount) / 3.0)
  }

  /** Under the sign rule the corrected savings are the summary balance of the window, spread over three months. */
  lemma MagnitudeSavingsMatchSummary(name: string, targetAmount: real, targetMonths: int, txs: seq<Transaction>,
                                     since: int, cats: seq<Category>)
    requires AllSignNormalised(txs)
    ensures SimulateByMagnitude(name, targetAmount, targetMonths, txs, since).monthlySavings * 3.0
      == Summarize(Recent(txs, since), cats).balance
  {
    var recent := Recent(txs, since);
    assert AllSignNormalised(recent);
    SignedTypeSums(recent);
  }
}
