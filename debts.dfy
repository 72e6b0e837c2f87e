/**
 * The debt table and its handlers: a payment lowers the remaining amount, never below
 * zero, and settles the debt when nothing remains; update and delete answer not-found
 * when no row has the id.
 */
module Debts {
  import opened Base

  /** The `status` column: `ENUM('active', 'paid', 'overdue')`, default `'active'`. */
  datatype DebtStatus = Active | Paid | Overdue

  datatype Debt = Debt(
    id: int,
    name: string,
    totalAmount: real,
    remainingAmount: real,
    monthlyPayment: real,
    interestRate: real,
    dueDate: int,
    status: DebtStatus)

  function DebtId(d: Debt): int
  {
    d.id
  }

  /**
   * The record update of a payment: `remainingAmount = Math.max(0, remainingAmount - amount)`,
   * then the status becomes `'paid'` when nothing remains.
   */
  function ApplyPayment(d: Debt, amount: real): (r: Debt)
    ensures r.remainingAmount >= 0.0
    ensures r.remainingAmount == 0.0 <==> d.remainingAmount <= amount
    ensures r.remainingAmount > 0.0 ==> r.remainingAmount + amount == d.remainingAmount
    ensures r.status == (if r.remainingAmount == 0.0 then Paid else d.status)
    ensures r == d.(remainingAmount := r.remainingAmount, status := r.status)
  {
    var remaining := Max(0.0, d.remainingAmount - amount);
    d.(remainingAmount := remaining, status := if remaining == 0.0 then Paid else d.status)
  }

  /** A non-negative payment never raises what remains, and paying at least the rest settles the debt. */
  lemma PaymentLowersRemaining(d: Debt, amount: real)
    requires d.remainingAmount >= 0.0 && amount >= 0.0
    ensures ApplyPayment(d, amount).remainingAmount <= d.remainingAmount
    ensures amount >= d.remainingAmount ==> ApplyPayment(d, amount).remainingAmount == 0.0
    ensures amount >= d.remainingAmount ==> ApplyPayment(d, amount).status == Paid
  {
  }

  /** Two non-negative payments in a row do what one payment of their sum does. */
  lemma PaymentsCompose(d: Debt, a: real, b: real)
    requires d.remainingAmount >= 0.0 && a >= 0.0 && b >= 0.0
    ensures ApplyPayment(ApplyPayment(d, a), b) == ApplyPayment(d, a + b)
  {
    var once := ApplyPayment(d, a);
    if once.remainingAmount == 0.0 {
      assert ApplyPayment(once, b).remainingAmount == 0.0;
    } else {
      assert once.remainingAmount == d.remainingAmount - a;
    }
  }

  /** The fields a request body may carry to `update`; absent ones are left as they are. */
  datatype DebtPatch = DebtPatch(
    name: Option<string>,
    totalAmount: Option<real>,
    remainingAmount: Option<real>,
    monthlyPayment: Option<real>,
    interestRate: Option<real>,
    dueDate: Option<int>,
    status: Option<DebtStatus>)

  function Pick<T>(o: Option<T>, keep: T): T
  {
    if o.Some? then o.value else keep
  }

  /** The row after `update(body)`: every present field replaced, the id kept. */
  function Patched(d: Debt, p: DebtPatch): (r: Debt)
    ensures r.id == d.id
    ensures p == DebtPatch(None, None, None, None, None, None, None) ==> r == d
    ensures p.name.Some? ==> r.name == p.name.value
    ensures p.name.None? ==> r.name == d.name
    ensures p.totalAmount.Some? ==> r.totalAmount == p.totalAmount.value
    ensures p.totalAmount.None? ==> r.totalAmount == d.totalAmount
    ensures p.remainingAmount.Some? ==> r.remainingAmount == p.remainingAmount.value
    ensures p.remainingAmount.None? ==> r.remainingAmount == d.remainingAmount
    ensures p.monthlyPayment.Some? ==> r.monthlyPayment == p.monthlyPayment.value
    ensures p.monthlyPayment.None? ==> r.monthlyPayment == d.monthlyPayment
    ensures p.interestRate.Some? ==> r.interestRate == p.interestRate.value
    ensures p.interestRate.None? ==> r.interestRate == d.interestRate
    ensures p.dueDate.Some? ==> r.dueDate == p.dueDate.value
    ensures p.dueDate.None? ==> r.dueDate == d.dueDate
    ensures p.status.Some? ==> r.status == p.status.value
    ensures p.status.None? ==> r.status == d.status
  {
    Debt(d.id, Pick(p.name, d.name), Pick(p.totalAmount, d.totalAmount), Pick(p.remainingAmount, d.remainingAmount),
      Pick(p.monthlyPayment, d.monthlyPayment), Pick(p.interestRate, d.interestRate), Pick(p.dueDate, d.dueDate),
      Pick(p.status, d.status))
  }

  /** The stored debts, in insertion order. */
  class DebtTable {
    var rows: seq<Debt>

    ghost predicate Valid()
      reads this
    {
      DistinctIds(rows, DebtId)
    }

    constructor ()
      ensures Valid() && rows == []
    {
      rows := [];
    }

    /** `makePayment`: not-found for an unknown id, otherwise the paid row, saved in place. */
    method MakePayment(id: int, amount: real) returns (r: Result<Debt, NotFound>)
      requires Valid()
      modifies this
      ensures Valid()
      ensures IndexOfId(old(rows), DebtId, id).None? ==> r == Err(NotFound) && rows == old(rows)
      ensures IndexOfId(old(rows), DebtId, id).Some? ==>
        var i := IndexOfId(old(rows), DebtId, id).value;
        r == Ok(ApplyPayment(old(rows)[i], amount)) && rows == old(rows)[i := r.value]
    {
      var found := IndexOfId(rows, DebtId, id);
      if found.None? {
        return Err(NotFound);
      }
      var i := found.value;
      var debt := rows[i];
      var remaining := Max(0.0, debt.remainingAmount - amount);
      debt := debt.(remainingAmount := remaining);
      if debt.remainingAmount == 0.0 {
        debt := debt.(status := Paid);
      }
      ReplaceDistinct(rows, DebtId, i, debt);
      rows := rows[i := debt];
      r := Ok(debt);
    }

    /** `update`: not-found when no row has the id, otherwise that row patched. */
    method Update(id: int, p: DebtPatch) returns (r: Result<Debt, NotFound>)
      requires Valid()
      modifies this
      ensures Valid()
      ensures IndexOfId(old(rows), DebtId, id).None? ==> r == Err(NotFound) && rows == old(rows)
      ensures IndexOfId(old(rows), DebtId, id).Some? ==>
        var i := IndexOfId(old(rows), DebtId, id).value;
        r == Ok(Patched(old(rows)[i], p)) && rows == old(rows)[i := r.value]
    {
      var found := IndexOfId(rows, DebtId, id);
      if found.None? {
        return Err(NotFound);
      }
      var i := found.value;
      var debt := Patched(rows[i], p);
      ReplaceDistinct(rows, DebtId, i, debt);
      rows := rows[i := debt];
      r := Ok(debt);
    }

    /** `delete`: not-found when no row has the id, otherwise that row removed. */
    method Delete(id: int) returns (r: Result<(), NotFound>)
      requires Valid()
      modifies this
      ensures Valid()
      ensures IndexOfId(old(rows), DebtId, id).None? ==> r == Err(NotFound) && rows == old(rows)
      ensures IndexOfId(old(rows), DebtId, id).Some? ==>
        r == Ok(()) && rows == RemoveAt(old(rows), IndexOfId(old(rows), DebtId, id).value)
      ensures forall k :: 0 <= k < |rows| ==> rows[k].id != id
    {
      var found := IndexOfId(rows, DebtId, id);
      if found.None? {
        return Err(NotFound);
      }
      RemoveDistinct(rows, DebtId, found.value);
      rows := RemoveAt(rows, found.value);
      r := Ok(());
    }
  }
}
