/**
 * Savings goals and their projections: months left to the target date, the monthly
 * amount still needed, and where the current contribution leads.
 */
module Goals {
  import opened Base

  datatype Goal = Goal(
    id: int,
    name: string,
    targetAmount: real,
    currentAmount: real,
    targetDate: int,
    monthlyContribution: real)

  /** The projection's month: 30 days, `1000 * 60 * 60 * 24 * 30` milliseconds. */
  const MonthMs: int := 30 * DayMs

  /** A goal with its projection fields (`{ ...goal.toJSON(), monthsRemaining, ... }`). */
  datatype Projection = Projection(
    goal: Goal,
    monthsRemaining: int,
    neededMonthly: real,
    projectedAmount: real,
    onTrack: bool)

  function Project(g: Goal, now: int): (p: Projection)
    ensures p.goal == g
    ensures p.monthsRemaining * MonthMs >= g.targetDate - now
    ensures (p.monthsRemaining - 1) * MonthMs < g.targetDate - now
    ensures p.monthsRemaining > 0 ==>
      p.neededMonthly * p.monthsRemaining as real == g.targetAmount - g.currentAmount
    ensures p.monthsRemaining <= 0 ==> p.neededMonthly == 0.0
    ensures p.projectedAmount - g.currentAmount == g.monthlyContribution * p.monthsRemaining as real
    ensures p.onTrack <==> p.projectedAmount >= g.targetAmount
  {
    var months := CeilDiv(g.targetDate - now, MonthMs);
    var needed := if months > 0 then (g.targetAmount - g.currentAmount) / months as real else 0.0;
    var projected := g.currentAmount + g.monthlyContribution * months as real;
    Projection(g, months, needed, projected, projected >= g.targetAmount)
  }

  /** `getProjections`: one projection per goal, in the order the goals are read. */
  function GetProjections(goals: seq<Goal>, now: int): (r: seq<Projection>)
    ensures |r| == |goals|
    ensures forall i :: 0 <= i < |goals| ==> r[i] == Project(goals[i], now) && r[i].goal == goals[i]
  {
    seq(|goals|, i requires 0 <= i < |goals| => Project(goals[i], now))
  }

  /**
   * Contributing the needed monthly amount puts a goal on track: with months left, the
   * projection then lands exactly on the target.
   */
  lemma NeededContributionReachesTarget(g: Goal, now: int)
    requires Project(g, now).monthsRemaining > 0
    ensures var p := Project(g.(monthlyContribution := Project(g, now).neededMonthly), now);
            p.projectedAmount == g.targetAmount && p.onTrack
  {
    var p := Project(g, now);
    var g2 := g.(monthlyContribution := p.neededMonthly);
    var p2 := Project(g2, now);
    assert p2.monthsRemaining == p.monthsRemaining;
    assert p2.projectedAmount == g.currentAmount + p.neededMonthly * p.monthsRemaining as real;
  }

  /** A goal whose date has passed projects nothing beyond what is saved (with a non-negative contribution). */
  lemma PastGoalProjection(g: Goal, now: int)
    requires g.targetDate <= now && g.monthlyContribution >= 0.0
    ensures Project(g, now).monthsRemaining <= 0
    ensures Project(g, now).neededMonthly == 0.0
    ensures Project(g, now).projectedAmount <= g.currentAmount
  {
    var p := Project(g, now);
    if p.monthsRemaining > 0 {
      assert false;
    }
  }
}
