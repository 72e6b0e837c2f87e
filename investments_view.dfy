/**
 * The investments page: the performance of each investment and of the portfolio, the
 * labels of the investment types, and the cards of the savings goals.
 */
module InvestmentsView {
  import opened Base
  import opened Investments
  import opened Goals

  /** `getPerformance`: zero for nothing invested, otherwise the gain as a percentage of what was invested. */
  function Performance(invested: real, current: real): (r: real)
    ensures invested == 0.0 ==> r == 0.0
    ensures invested != 0.0 ==> r * invested == (current - invested) * 100.0
  {
    if invested == 0.0 then 0.0 else ((current - invested) / invested) * 100.0
  }

  /** With a positive amount invested, the performance has the sign of the gain. */
  lemma {:induction false} PerformanceSign(invested: real, current: real)
    requires invested > 0.0
    ensures Performance(invested, current) > 0.0 <==> current > invested
    ensures Performance(invested, current) == 0.0 <==> current == invested
    ensures Performance(invested, current) < 0.0 <==> current < invested
  {
    var q := (current - invested) / invested;
    assert q * invested == current - invested;
    assert q > 0.0 <==> current - invested > 0.0;
    assert q < 0.0 <==> current - invested < 0.0;
  }

  /** The code stored in the `type` column. */
  function TypeCode(k: InvestmentType): string
  {
    match k
    case Acao => "acao"
    case Fundo => "fundo"
    case RendaFixa => "renda_fixa"
    case Cripto => "cripto"
    case Outros => "outros"
  }

  /** `getTypeLabel`: the label of a known code, any other code unchanged. */
  function TypeLabel(code: string): (shown: string)
    ensures code !in {"acao", "fundo", "renda_fixa", "cripto", "outros"} ==> shown == code
    ensures code in {"acao", "fundo", "renda_fixa", "cripto", "outros"} ==> shown != "" && shown != code
  {
    if code == "acao" then "Ação"
    else if code == "fundo" then "Fundo"
    else if code == "renda_fixa" then "Renda Fixa"
    else if code == "cripto" then "Cripto"
    else if code == "outros" then "Outros"
    else code
  }

  /** Every stored type gets a label of its own, different from its code and from the other types' labels. */
  lemma StoredTypesLabelled(k: InvestmentType, k': InvestmentType)
    ensures TypeLabel(TypeCode(k)) != TypeCode(k)
    ensures k != k' ==> TypeLabel(TypeCode(k)) != TypeLabel(TypeCode(k'))
  {
  }

  /** `investments.reduce((sum, inv) => sum + parseFloat(inv.totalInvested), 0)`, with the stored `DECIMAL` read as its exact value. */
  function InvestedTotal(invs: seq<Investment>): real
    decreases |invs|
  {
    if invs == [] then 0.0 else InvestedTotal(invs[..|invs| - 1]) + invs[|invs| - 1].totalInvested
  }

  /** `investments.reduce((sum, inv) => sum + parseFloat(inv.currentValue), 0)`, with the stored `DECIMAL` read as its exact value. */
  function CurrentTotal(invs: seq<Investment>): real
    decreases |invs|
  {
    if invs == [] then 0.0 else CurrentTotal(invs[..|invs| - 1]) + invs[|invs| - 1].currentValue
  }

  /** `totalPerformance`: the performance of the portfolio totals. */
  function TotalPerformance(invs: seq<Investment>): real
  {
    Performance(InvestedTotal(invs), CurrentTotal(invs))
  }

  lemma {:induction false} TotalsCompare(invs: seq<Investment>)
    requires forall k :: 0 <= k < |invs| ==> invs[k].totalInvested >= 0.0
    ensures InvestedTotal(invs) >= 0.0
    ensures (forall k :: 0 <= k < |invs| ==> invs[k].currentValue >= invs[k].totalInvested) ==>
      CurrentTotal(invs) >= InvestedTotal(invs)
    ensures (forall k :: 0 <= k < |invs| ==> invs[k].currentValue <= invs[k].totalInvested) ==>
      CurrentTotal(invs) <= InvestedTotal(invs)
    decreases |invs|
  {
    if invs != [] {
      TotalsCompare(invs[..|invs| - 1]);
    }
  }

  /**
   * A portfolio where every investment has gained shows a non-negative total
   * performance, and one where every investment has lost a non-positive one.
   */
  lemma {:induction false} PortfolioFollowsInvestments(invs: seq<Investment>)
    requires forall k :: 0 <= k < |invs| ==> invs[k].totalInvested >= 0.0
    ensures (forall k :: 0 <= k < |invs| ==> invs[k].currentValue >= invs[k].totalInvested) ==>
      TotalPerformance(invs) >= 0.0
    ensures (forall k :: 0 <= k < |invs| ==> invs[k].currentValue <= invs[k].totalInvested) ==>
      TotalPerformance(invs) <= 0.0
  {
    TotalsCompare(invs);
    if InvestedTotal(invs) > 0.0 {
      PerformanceSign(InvestedTotal(invs), CurrentTotal(invs));
    }
  }

  // ---------------------------------------------------------------------------
  // Goal cards
  // ---------------------------------------------------------------------------

  /** `(currentAmount / targetAmount) * 100`. */
  function GoalProgress(g: Goal): Ext
  {
    Percent(g.currentAmount, g.targetAmount)
  }

  /** `Math.min(progress, 100)`, the width of the goal bar. */
  function GoalBarWidth(g: Goal): (w: Ext)
    ensures GoalProgress(g) != NaN ==> Le(w, 100.0)
  {
    MinWith(GoalProgress(g), 100.0)
  }

  /** With something saved towards a positive target, the bar is between empty and full. */
  lemma {:induction false} GoalBarBounds(g: Goal)
    requires g.targetAmount > 0.0 && g.currentAmount >= 0.0
    ensures GoalBarWidth(g).Fin? && 0.0 <= GoalBarWidth(g).v <= 100.0
    ensures GoalBarWidth(g).v == 100.0 <==> g.currentAmount >= g.targetAmount
  {
    var q := g.currentAmount / g.targetAmount;
    assert q * g.targetAmount == g.currentAmount;
    assert q >= 0.0;
    assert q >= 1.0 <==> g.currentAmount >= g.targetAmount;
    assert GoalProgress(g) == Fin(q * 100.0);
  }

  /** `Math.max(0, goal.monthsRemaining)`. */
  function MonthsLeft(p: Projection): (m: int)
    ensures m >= 0 && m >= p.monthsRemaining
    ensures m == 0 || m == p.monthsRemaining
  {
    if p.monthsRemaining > 0 then p.monthsRemaining else 0
  }

  /** The card reads 'Meta vencida' instead of the months left and the monthly amount. */
  predicate ShowsExpired(p: Projection)
  {
    !(MonthsLeft(p) > 0)
  }

  /**
   * 'Meta vencida' shows exactly when the target date is not after now; otherwise the
   * months left times the monthly amount shown is what is still missing.
   */
  lemma {:induction false} ExpiredIffDatePassed(g: Goal, now: int)
    ensures ShowsExpired(Project(g, now)) <==> g.targetDate <= now
    ensures !ShowsExpired(Project(g, now)) ==>
      Project(g, now).neededMonthly * MonthsLeft(Project(g, now)) as real == g.targetAmount - g.currentAmount
  {
    var p := Project(g, now);
    if p.monthsRemaining <= 0 {
      assert p.monthsRemaining * MonthMs <= 0;
    } else {
      assert (p.monthsRemaining - 1) * MonthMs >= 0;
    }
  }
}
