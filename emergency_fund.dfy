/**
 * The emergency fund: a single stored record with a target, the amount saved so far,
 * the monthly expenses it should cover and the number of months to cover.
 */
module EmergencyFunds {
  import opened Base

  datatype Fund = Fund(id: int, targetAmount: real, currentAmount: real, monthlyExpenses: real, targetMonths: int)

  /** The fields a request body may carry; absent ones are `None`. */
  datatype FundBody = FundBody(
    targetAmount: Option<real>,
    currentAmount: Option<real>,
    monthlyExpenses: Option<real>,
    targetMonths: Option<int>)

  /** Creating a fund without a target or without monthly expenses violates `allowNull: false`. */
  datatype ValidationError = MissingTargetAmount | MissingMonthlyExpenses

  /** The fund `get` creates when there is none: nothing saved, a target of 6 months. */
  function DefaultFund(id: int): Fund
  {
    Fund(id, 0.0, 0.0, 0.0, 6)
  }

  /** A body field is truthy when present and non-zero. */
  predicate TruthyReal(o: Option<real>)
  {
    o.Some? && o.value != 0.0
  }

  predicate TruthyInt(o: Option<int>)
  {
    o.Some? && o.value != 0
  }

  /** `req.body.monthlyExpenses || req.body.targetMonths`. */
  predicate Recomputes(body: FundBody)
  {
    TruthyReal(body.monthlyExpenses) || TruthyInt(body.targetMonths)
  }

  /** `EmergencyFund.create(body)`: the defaults fill `currentAmount` (0) and `targetMonths` (6). */
  function Created(id: int, body: FundBody): (r: Result<Fund, ValidationError>)
    ensures r.Err? <==> body.targetAmount.None? || body.monthlyExpenses.None?
    ensures r.Ok? ==>
      && r.value.id == id && r.value.targetAmount == body.targetAmount.value
      && r.value.monthlyExpenses == body.monthlyExpenses.value
      && r.value.currentAmount == (if body.currentAmount.Some? then body.currentAmount.value else 0.0)
      && r.value.targetMonths == (if body.targetMonths.Some? then body.targetMonths.value else 6)
  {
    if body.targetAmount.None? then Err(MissingTargetAmount)
    else if body.monthlyExpenses.None? then Err(MissingMonthlyExpenses)
    else Ok(Fund(id, body.targetAmount.value,
      if body.currentAmount.Some? then body.currentAmount.value else 0.0,
      body.monthlyExpenses.value,
      if body.targetMonths.Some? then body.targetMonths.value else 6))
  }

  /** `fund.update(body)`: every present field replaced. */
  function Merged(f: Fund, body: FundBody): (r: Fund)
    ensures r.id == f.id
    ensures body == FundBody(None, None, None, None) ==> r == f
    ensures body.targetAmount.Some? ==> r.targetAmount == body.targetAmount.value
    ensures body.targetAmount.None? ==> r.targetAmount == f.targetAmount
    ensures body.currentAmount.Some? ==> r.currentAmount == body.currentAmount.value
    ensures body.currentAmount.None? ==> r.currentAmount == f.currentAmount
    ensures body.monthlyExpenses.Some? ==> r.monthlyExpenses == body.monthlyExpenses.value
    ensures body.monthlyExpenses.None? ==> r.monthlyExpenses == f.monthlyExpenses
    ensures body.targetMonths.Some? ==> r.targetMonths == body.targetMonths.value
    ensures body.targetMonths.None? ==> r.targetMonths == f.targetMonths
  {
    Fund(f.id,
      if body.targetAmount.Some? then body.targetAmount.value else f.targetAmount,
      if body.currentAmount.Some? then body.currentAmount.value else f.currentAmount,
      if body.monthlyExpenses.Some? then body.monthlyExpenses.value else f.monthlyExpenses,
      if body.targetMonths.Some? then body.targetMonths.value else f.targetMonths)
  }

  /** The target follows from the expenses to cover and the months to cover them. */
  predicate TargetCoversExpenses(f: Fund)
  {
    f.targetAmount == f.monthlyExpenses * f.targetMonths as real
  }

  /** The fund after `update(body)` from the stored one (if any), as the handler leaves it. */
  function Updated(stored: Option<Fund>, id: int, body: FundBody): Result<Fund, ValidationError>
  {
    var written := if stored.None? then Created(id, body) else Ok(Merged(stored.value, body));
    if written.Err? then written
    else if Recomputes(body) then
      Ok(written.value.(targetAmount := written.value.monthlyExpenses * written.value.targetMonths as real))
    else written
  }

  /**
   * What `update` promises: with a truthy expense or month figure in the body the target
   * is recomputed from the merged figures; otherwise it is the body's target, or the
   * stored one; and only the target is derived, every other field is as merged.
   */
  lemma UpdateTarget(stored: Option<Fund>, id: int, body: FundBody)
    ensures Updated(stored, id, body).Err? <==> stored.None? && (body.targetAmount.None? || body.monthlyExpenses.None?)
    ensures var r := Updated(stored, id, body);
      r.Ok? && Recomputes(body) ==> TargetCoversExpenses(r.value)
    ensures var r := Updated(stored, id, body);
      r.Ok? && !Recomputes(body) ==>
        r.value.targetAmount == (if body.targetAmount.Some? then body.targetAmount.value else stored.value.targetAmount)
    ensures var r := Updated(stored, id, body);
      r.Ok? && stored.Some? ==> r.value.(targetAmount := 0.0) == Merged(stored.value, body).(targetAmount := 0.0)
  {
  }

  /** Contributions do not touch the target: a recomputed target stays consistent. */
  lemma ContributionKeepsTarget(f: Fund, amount: real)
    requires TargetCoversExpenses(f)
    ensures TargetCoversExpenses(f.(currentAmount := f.currentAmount + amount))
  {
  }

  /** The single fund record, if configured, and the id the next one would get. */
  class FundStore {
    var fund: Option<Fund>
    var nextId: int

    constructor ()
      ensures fund.None? && nextId == 1
    {
      fund := None;
      nextId := 1;
    }

    /** `get`: the stored fund, or a newly stored default one. */
    method Get() returns (f: Fund)
      modifies this
      ensures old(fund).Some? ==> f == old(fund).value && fund == old(fund) && nextId == old(nextId)
      ensures old(fund).None? ==> f == DefaultFund(old(nextId)) && fund == Some(f) && nextId == old(nextId) + 1
    {
      if fund.None? {
        fund := Some(DefaultFund(nextId));
        nextId := nextId + 1;
      }
      f := fund.value;
    }

    /** `update`: create or merge, then recompute the target when the body asks for it. */
    method Update(body: FundBody) returns (r: Result<Fund, ValidationError>)
      modifies this
      ensures r == Updated(old(fund), old(nextId), body)
      ensures r.Err? ==> fund == old(fund) && nextId == old(nextId)
      ensures r.Ok? ==> fund == Some(r.value)
      ensures r.Ok? ==> nextId == (if old(fund).None? then old(nextId) + 1 else old(nextId))
    {
      var f: Fund;
      if fund.None? {
        var created := Created(nextId, body);
        if created.Err? {
          r := created;
          return;
        }
        f := created.value;
        nextId := nextId + 1;
      } else {
        f := Merged(fund.value, body);
      }
      if Recomputes(body) {
        f := f.(targetAmount := f.monthlyExpenses * f.targetMonths as real);
      }
      fund := Some(f);
      r := Ok(f);
      assert Updated(old(fund), old(nextId), body).Ok?;
      assert Updated(old(fund), old(nextId), body).value == f;
    }

    /** `addContribution`: not-found without a fund, otherwise the amount added to what is saved. */
    method AddContribution(amount: real) returns (r: Result<Fund, NotFound>)
      modifies this
      ensures nextId == old(nextId)
      ensures old(fund).None? ==> r == Err(NotFound) && fund == old(fund)
      ensures old(fund).Some? ==>
        r == Ok(old(fund).value.(currentAmount := old(fund).value.currentAmount + amount)) && fund == Some(r.value)
    {
      if fund.None? {
        return Err(NotFound);
      }
      var f := fund.value;
      f := f.(currentAmount := f.currentAmount + amount);
      fund := Some(f);
      r := Ok(f);
    }
  }
}
