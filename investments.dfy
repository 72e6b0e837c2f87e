/**
 * Investments and the contributions made to them: a contribution is always recorded
 * and raises the invested total of the investment it names; the list of investments
 * is ordered by name and the contributions of one investment newest first.
 */
module Investments {
  import opened Base
  import opened Sorting

  /** The `type` column: `ENUM('acao', 'fundo', 'renda_fixa', 'cripto', 'outros')`. */
  datatype InvestmentType = Acao | Fundo | RendaFixa | Cripto | Outros

  datatype Investment = Investment(id: int, name: string, kind: InvestmentType, totalInvested: real, currentValue: real)

  datatype Contribution = Contribution(id: int, amount: real, date: int, investmentId: Option<int>)

  /** The body of `addContribution`; `date` defaults to the current instant. */
  datatype ContributionBody = ContributionBody(amount: Option<real>, date: Option<int>, investmentId: Option<int>)

  /** A contribution without an amount violates `allowNull: false`. */
  datatype MissingAmount = MissingAmount

  function InvestmentId(inv: Investment): int
  {
    inv.id
  }

  /** What has been contributed to investment `id`, over the recorded contributions. */
  function ContributedTo(cs: seq<Contribution>, id: int): real
    decreases |cs|
  {
    if cs == [] then 0.0
    else
      var last := cs[|cs| - 1];
      ContributedTo(cs[..|cs| - 1], id) + (if last.investmentId == Some(id) then last.amount else 0.0)
  }

  lemma ContributedToAppend(cs: seq<Contribution>, c: Contribution, id: int)
    ensures ContributedTo(cs + [c], id) == ContributedTo(cs, id) + (if c.investmentId == Some(id) then c.amount else 0.0)
  {
    assert (cs + [c])[..|cs|] == cs;
  }

  /** The row after a contribution of `amount`: only the invested total moves. */
  function Contributed(inv: Investment, amount: real): (r: Investment)
    ensures r.totalInvested - inv.totalInvested == amount
    ensures r.(totalInvested := inv.totalInvested) == inv
  {
    inv.(totalInvested := inv.totalInvested + amount)
  }

  // ---------------------------------------------------------------------------
  // Orders
  // ---------------------------------------------------------------------------

  /** Lexicographic order of strings by character code, a prefix first. */
  predicate StrLe(a: string, b: string)
    decreases |a|
  {
    a == [] || (b != [] && (a[0] < b[0] || (a[0] == b[0] && StrLe(a[1..], b[1..]))))
  }

  lemma {:induction false} StrLeTotal(a: string, b: string)
    ensures StrLe(a, b) || StrLe(b, a)
    decreases |a|
  {
    if a != [] && b != [] && a[0] == b[0] {
      StrLeTotal(a[1..], b[1..]);
    }
  }

  lemma {:induction false} StrLeTrans(a: string, b: string, c: string)
    requires StrLe(a, b) && StrLe(b, c)
    ensures StrLe(a, c)
    decreases |a|
  {
    if a != [] && a[0] == b[0] && b[0] == c[0] {
      StrLeTrans(a[1..], b[1..], c[1..]);
    }
  }

  /** `order: [['name', 'ASC']]`. */
  function ByName(a: Investment, b: Investment): bool
  {
    StrLe(a.name, b.name)
  }

  lemma ByNameTotal()
    ensures TotalPreorder(ByName)
  {
    forall a: Investment, b: Investment
      ensures ByName(a, b) || ByName(b, a)
    {
      StrLeTotal(a.name, b.name);
    }
    forall a: Investment, b: Investment, c: Investment | ByName(a, b) && ByName(b, c)
      ensures ByName(a, c)
    {
      StrLeTrans(a.name, b.name, c.name);
    }
  }

  /** `order: [['date', 'DESC']]`. */
  function NewerFirst(a: Contribution, b: Contribution): bool
  {
    a.date >= b.date
  }

  lemma NewerFirstTotal()
    ensures TotalPreorder(NewerFirst)
  {
  }

  /** The contributions recorded for investment `id` (`where: { investmentId }`), in stored order. */
  function ContributionsOf(cs: seq<Contribution>, id: int): (r: seq<Contribution>)
    ensures forall c :: c in r <==> c in cs && c.investmentId == Some(id)
    decreases |cs|
  {
    if cs == [] then []
    else
      var last := cs[|cs| - 1];
      assert cs == cs[..|cs| - 1] + [last];
      ContributionsOf(cs[..|cs| - 1], id) + (if last.investmentId == Some(id) then [last] else [])
  }

  // ---------------------------------------------------------------------------
  // The tables
  // ---------------------------------------------------------------------------

  class InvestmentStore {
    var investments: seq<Investment>
    var contributions: seq<Contribution>
    var nextContributionId: int

    ghost predicate Valid()
      reads this
    {
      DistinctIds(investments, InvestmentId)
    }

    /** Each invested total is the sum of the contributions recorded for it. */
    ghost predicate TotalsMatchContributions()
      reads this
    {
      forall k :: 0 <= k < |investments| ==> investments[k].totalInvested == ContributedTo(contributions, investments[k].id)
    }

    constructor ()
      ensures Valid() && investments == [] && contributions == [] && nextContributionId == 1
    {
      investments := [];
      contributions := [];
      nextContributionId := 1;
    }

    /**
     * `addContribution`: the contribution is recorded even when no investment has its
     * `investmentId`; an investment that has it gets the amount added to its total.
     */
    method AddContribution(body: ContributionBody, now: int) returns (r: Result<Contribution, MissingAmount>)
      requires Valid()
      modifies this
      ensures Valid()
      ensures body.amount.None? ==>
        && r == Err(MissingAmount) && investments == old(investments)
        && contributions == old(contributions) && nextContributionId == old(nextContributionId)
      ensures body.amount.Some? ==>
        && r == Ok(Contribution(old(nextContributionId), body.amount.value,
                                if body.date.Some? then body.date.value else now, body.investmentId))
        && contributions == old(contributions) + [r.value]
        && nextContributionId == old(nextContributionId) + 1
      ensures body.amount.Some? && body.investmentId.Some? &&
              IndexOfId(old(investments), InvestmentId, body.investmentId.value).Some? ==>
        var i := IndexOfId(old(investments), InvestmentId, body.investmentId.value).value;
        investments == old(investments)[i := Contributed(old(investments)[i], body.amount.value)]
      ensures body.amount.Some? && (body.investmentId.None? ||
              IndexOfId(old(investments), InvestmentId, body.investmentId.value).None?) ==>
        investments == old(investments)
      ensures old(TotalsMatchContributions()) ==> TotalsMatchContributions()
    {
      if body.amount.None? {
        return Err(MissingAmount);
      }
      var c := Contribution(nextContributionId, body.amount.value,
                            if body.date.Some? then body.date.value else now, body.investmentId);
      ghost var before := contributions;
      contributions := contributions + [c];
      nextContributionId := nextContributionId + 1;
      r := Ok(c);
      if body.investmentId.Some? {
        var found := IndexOfId(investments, InvestmentId, body.investmentId.value);
        if found.Some? {
          var i := found.value;
          ReplaceDistinct(investments, InvestmentId, i, Contributed(investments[i], c.amount));
          investments := investments[i := Contributed(investments[i], c.amount)];
        }
      }
      forall k | 0 <= k < |investments|
        ensures ContributedTo(contributions, investments[k].id)
          == ContributedTo(before, investments[k].id) + (if c.investmentId == Some(investments[k].id) then c.amount else 0.0)
      {
        ContributedToAppend(before, c, investments[k].id);
      }
    }

    /** `getAll`: every investment, by name ascending; equal names keep their stored order. */
    method GetAll() returns (r: seq<Investment>)
      ensures r == InsertionSort(investments, ByName)
      ensures multiset(r) == multiset(investments)
      ensures forall i, j :: 0 <= i < j < |r| ==> StrLe(r[i].name, r[j].name)
    {
      ByNameTotal();
      InsertionSortSorted(investments, ByName);
      InsertionSortPermutes(investments, ByName);
      r := InsertionSort(investments, ByName);
    }

    /** `getContributions`: the contributions of one investment, newest first. */
    method GetContributions(investmentId: int) returns (r: seq<Contribution>)
      ensures r == InsertionSort(ContributionsOf(contributions, investmentId), NewerFirst)
      ensures forall c :: c in r <==> c in contributions && c.investmentId == Some(investmentId)
      ensures forall i, j :: 0 <= i < j < |r| ==> r[i].date >= r[j].date
    {
      var mine := ContributionsOf(contributions, investmentId);
      NewerFirstTotal();
      InsertionSortSorted(mine, NewerFirst);
      InsertionSortPermutes(mine, NewerFirst);
      r := InsertionSort(mine, NewerFirst);
      assert forall c :: c in r <==> c in multiset(mine);
    }
  }
}
