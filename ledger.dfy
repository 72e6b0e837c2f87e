/**
 * Transactions as the storage layer keeps them, and the sums and per-category
 * groupings that the controllers compute over them.
 *
 * A JavaScript object filled key by key (`acc[name] = (acc[name] || 0) + x`) is an
 * association list here: its entries in insertion order, one per key. That is how
 * JavaScript treats names that are neither integer-like (enumerated first, in numeric
 * order) nor inherited from `Object.prototype`; those two kinds are not modelled.
 */
module Ledger {
  import opened Base

  /** The `type` column: `ENUM('income', 'expense')`. */
  datatype TxType = Income | Expense

  function TypeName(k: TxType): string
  {
    match k
    case Income => "income"
    case Expense => "expense"
  }

  datatype Transaction = Transaction(
    id: int,
    description: string,
    amount: real,
    kind: TxType,
    categoryId: Option<int>,
    date: int,
    createdAt: int)

  datatype Category = Category(id: int, name: string)

  /** The label of a transaction whose category is missing or has an empty name. */
  const Uncategorised: string := "Sem categoria"

  /**
   * `t.Category?.name || 'Sem categoria'`: the name of the category the transaction
   * refers to, or the fallback label when there is none or its name is empty.
   */
  function CategoryLabel(t: Transaction, cats: seq<Category>): (r: string)
    ensures r != ""
    ensures r == Uncategorised || exists c :: c in cats && t.categoryId == Some(c.id) && c.name == r
    decreases |cats|
  {
    if t.categoryId.None? || cats == [] then Uncategorised
    else if cats[0].id == t.categoryId.value then
      (if cats[0].name == "" then Uncategorised else cats[0].name)
    else CategoryLabel(t, cats[1..])
  }

  // ---------------------------------------------------------------------------
  // Sums
  // ---------------------------------------------------------------------------

  /** The amount as stored, with its sign. */
  function Amount(t: Transaction): real
  {
    t.amount
  }

  /** `Math.abs(parseFloat(t.amount))`. */
  function AbsAmount(t: Transaction): real
  {
    Abs(t.amount)
  }

  /** `ts.reduce((sum, t) => sum + f(t), 0)`. */
  function SumOf(ts: seq<Transaction>, f: Transaction -> real): real
    decreases |ts|
  {
    if ts == [] then 0.0 else SumOf(ts[..|ts| - 1], f) + f(ts[|ts| - 1])
  }

  /** `ts.filter(t => t.type === k)`. */
  function OfType(ts: seq<Transaction>, k: TxType): (r: seq<Transaction>)
    ensures |r| <= |ts|
    ensures forall t :: t in r <==> t in ts && t.kind == k
    decreases |ts|
  {
    if ts == [] then []
    else OfType(ts[..|ts| - 1], k) + (if ts[|ts| - 1].kind == k then [ts[|ts| - 1]] else [])
  }

  lemma {:induction false} SumOfAppend(a: seq<Transaction>, b: seq<Transaction>, f: Transaction -> real)
    ensures SumOf(a + b, f) == SumOf(a, f) + SumOf(b, f)
    decreases |b|
  {
    if b == [] {
      assert a + b == a;
    } else {
      assert (a + b)[..|a + b| - 1] == a + b[..|b| - 1];
      assert (a + b)[|a + b| - 1] == b[|b| - 1];
      SumOfAppend(a, b[..|b| - 1], f);
    }
  }

  /** Taking one transaction out of a sequence takes its term out of the sum. */
  lemma {:induction false} SumOfRemoveAt(ts: seq<Transaction>, j: nat, f: Transaction -> real)
    requires j < |ts|
    ensures SumOf(ts, f) == SumOf(ts[..j] + ts[j + 1..], f) + f(ts[j])
  {
    assert ts == (ts[..j] + [ts[j]]) + ts[j + 1..];
    SumOfAppend(ts[..j] + [ts[j]], ts[j + 1..], f);
    SumOfAppend(ts[..j], [ts[j]], f);
    SumOfAppend(ts[..j], ts[j + 1..], f);
    assert [ts[j]][..0] == [];
  }

  /** A sum does not depend on the order of the transactions: a reordering has the same sum. */
  lemma {:induction false} SumOfPermutation(a: seq<Transaction>, b: seq<Transaction>, f: Transaction -> real)
    requires multiset(a) == multiset(b)
    ensures SumOf(a, f) == SumOf(b, f)
    decreases |a|
  {
    if a == [] {
      assert |b| == |multiset(b)| == 0;
    } else {
      var x := a[|a| - 1];
      assert x in multiset(b);
      var j :| 0 <= j < |b| && b[j] == x;
      RemoveMatching(a, b, j);
      SumOfPermutation(a[..|a| - 1], b[..j] + b[j + 1..], f);
      SumOfRemoveAt(b, j, f);
    }
  }

  /** Taking the last element of `a` and a copy of it in `b` out of both keeps their multisets equal. */
  lemma RemoveMatching<T>(a: seq<T>, b: seq<T>, j: nat)
    requires multiset(a) == multiset(b) && a != [] && j < |b| && b[j] == a[|a| - 1]
    ensures multiset(a[..|a| - 1]) == multiset(b[..j] + b[j + 1..])
  {
    var x := b[j];
    var rest := b[..j] + b[j + 1..];
    assert a == a[..|a| - 1] + [x];
    assert b == b[..j] + [x] + b[j + 1..];
    assert multiset(b) == multiset(rest) + multiset{x};
    assert multiset(a) == multiset(a[..|a| - 1]) + multiset{x};
    forall t ensures multiset(a[..|a| - 1])[t] == multiset(rest)[t] {
      assert multiset(a)[t] == multiset(b)[t];
    }
  }

  /** A sum of absolute amounts is never negative. */
  lemma {:induction false} SumOfAbsNonNegative(ts: seq<Transaction>)
    ensures SumOf(ts, AbsAmount) >= 0.0
    decreases |ts|
  {
    if ts != [] {
      SumOfAbsNonNegative(ts[..|ts| - 1]);
    }
  }

  /**
   * The sign rule that transaction creation establishes: an expense is stored with a
   * non-positive amount and an income with a non-negative one.
   */
  predicate SignNormalised(t: Transaction)
  {
    (t.kind == Expense ==> t.amount <= 0.0) && (t.kind == Income ==> t.amount >= 0.0)
  }

  predicate AllSignNormalised(ts: seq<Transaction>)
  {
    forall t :: t in ts ==> SignNormalised(t)
  }

  /** Over amounts that are all non-positive, the signed sum is minus the sum of magnitudes. */
  lemma {:induction false} SumOfNonPositive(ts: seq<Transaction>)
    requires forall t :: t in ts ==> t.amount <= 0.0
    ensures SumOf(ts, Amount) == -SumOf(ts, AbsAmount)
    decreases |ts|
  {
    if ts != [] {
      assert ts[|ts| - 1] in ts;
      SumOfNonPositive(ts[..|ts| - 1]);
    }
  }

  /** Over amounts that are all non-negative, the signed sum is the sum of magnitudes. */
  lemma {:induction false} SumOfNonNegative(ts: seq<Transaction>)
    requires forall t :: t in ts ==> t.amount >= 0.0
    ensures SumOf(ts, Amount) == SumOf(ts, AbsAmount)
    decreases |ts|
  {
    if ts != [] {
      assert ts[|ts| - 1] in ts;
      SumOfNonNegative(ts[..|ts| - 1]);
    }
  }

  /**
   * Under the sign rule, the signed income sum is the income magnitude and the signed
   * expense sum is minus the expense magnitude.
   */
  lemma SignedTypeSums(ts: seq<Transaction>)
    requires AllSignNormalised(ts)
    ensures SumOf(OfType(ts, Income), Amount) == SumOf(OfType(ts, Income), AbsAmount)
    ensures SumOf(OfType(ts, Expense), Amount) == -SumOf(OfType(ts, Expense), AbsAmount)
    ensures SumOf(OfType(ts, Expense), Amount) <= 0.0
  {
    SumOfNonNegative(OfType(ts, Income));
    SumOfNonPositive(OfType(ts, Expense));
    SumOfAbsNonNegative(OfType(ts, Expense));
  }

  // ---------------------------------------------------------------------------
  // Totals keyed by category name
  // ---------------------------------------------------------------------------

  /** An object from names to amounts, as its entries in insertion order (for names that are not integer-like). */
  type Totals = seq<(string, real)>

  predicate HasKey(m: Totals, k: string)
    decreases |m|
  {
    m != [] && (m[0].0 == k || HasKey(m[1..], k))
  }

  /** No name occurs twice. */
  predicate DistinctKeys(m: Totals)
    decreases |m|
  {
    m == [] || (!HasKey(m[1..], m[0].0) && DistinctKeys(m[1..]))
  }

  /** `m[k] || 0`. */
  function ValueOf(m: Totals, k: string): real
    decreases |m|
  {
    if m == [] then 0.0
    else if m[0].0 == k then m[0].1
    else ValueOf(m[1..], k)
  }

  /** The sum of all values: `Object.values(m).reduce((a, b) => a + b, 0)`. */
  function TotalOf(m: Totals): real
    decreases |m|
  {
    if m == [] then 0.0 else m[0].1 + TotalOf(m[1..])
  }

  /**
   * `m[k] = (m[k] || 0) + v`: an existing key is updated where it stands, a new key is
   * appended.
   */
  function AddTo(m: Totals, k: string, v: real): (r: Totals)
    ensures |r| == |m| || |r| == |m| + 1
    ensures forall q :: HasKey(r, q) <==> HasKey(m, q) || q == k
    decreases |m|
  {
    if m == [] then [(k, v)]
    else if m[0].0 == k then
      assert ([(k, m[0].1 + v)] + m[1..])[1..] == m[1..];
      [(k, m[0].1 + v)] + m[1..]
    else
      assert ([m[0]] + AddTo(m[1..], k, v))[1..] == AddTo(m[1..], k, v);
      [m[0]] + AddTo(m[1..], k, v)
  }

  lemma {:induction false} AddToTotal(m: Totals, k: string, v: real)
    ensures TotalOf(AddTo(m, k, v)) == TotalOf(m) + v
    decreases |m|
  {
    if m != [] && m[0].0 != k {
      AddToTotal(m[1..], k, v);
      assert ([m[0]] + AddTo(m[1..], k, v))[1..] == AddTo(m[1..], k, v);
    } else if m != [] {
      assert ([(k, m[0].1 + v)] + m[1..])[1..] == m[1..];
    }
  }

  lemma {:induction false} AddToValue(m: Totals, k: string, v: real, q: string)
    ensures ValueOf(AddTo(m, k, v), q) == ValueOf(m, q) + (if q == k then v else 0.0)
    decreases |m|
  {
    if m != [] && m[0].0 != k {
      AddToValue(m[1..], k, v, q);
      assert ([m[0]] + AddTo(m[1..], k, v))[1..] == AddTo(m[1..], k, v);
    } else if m != [] {
      assert ([(k, m[0].1 + v)] + m[1..])[1..] == m[1..];
    }
  }

  lemma {:induction false} AddToDistinct(m: Totals, k: string, v: real)
    requires DistinctKeys(m)
    ensures DistinctKeys(AddTo(m, k, v))
    decreases |m|
  {
    if m != [] && m[0].0 != k {
      AddToDistinct(m[1..], k, v);
      assert ([m[0]] + AddTo(m[1..], k, v))[1..] == AddTo(m[1..], k, v);
    } else if m != [] {
      assert ([(k, m[0].1 + v)] + m[1..])[1..] == m[1..];
    }
  }

  /**
   * `ts.reduce((acc, t) => { acc[label(t)] = (acc[label(t)] || 0) + f(t); return acc }, {})`
   * with `label` the category label of a transaction.
   */
  function GroupByCategory(ts: seq<Transaction>, cats: seq<Category>, f: Transaction -> real): Totals
    decreases |ts|
  {
    if ts == [] then []
    else AddTo(GroupByCategory(ts[..|ts| - 1], cats, f), CategoryLabel(ts[|ts| - 1], cats), f(ts[|ts| - 1]))
  }

  /** The transactions whose category label is `name`. */
  function Labelled(ts: seq<Transaction>, cats: seq<Category>, name: string): (r: seq<Transaction>)
    ensures forall t :: t in r <==> t in ts && CategoryLabel(t, cats) == name
    decreases |ts|
  {
    if ts == [] then []
    else
      Labelled(ts[..|ts| - 1], cats, name)
        + (if CategoryLabel(ts[|ts| - 1], cats) == name then [ts[|ts| - 1]] else [])
  }

  /** The type filter keeps every transaction of the type as often as it occurs, and no other. */
  lemma {:induction false} OfTypeCounts(ts: seq<Transaction>, k: TxType)
    ensures forall t :: multiset(OfType(ts, k))[t] == if t.kind == k then multiset(ts)[t] else 0
    decreases |ts|
  {
    if ts != [] {
      OfTypeCounts(ts[..|ts| - 1], k);
      assert ts == ts[..|ts| - 1] + [ts[|ts| - 1]];
    }
  }

  /** The label filter keeps every transaction with the label as often as it occurs, and no other. */
  lemma {:induction false} LabelledCounts(ts: seq<Transaction>, cats: seq<Category>, name: string)
    ensures forall t :: multiset(Labelled(ts, cats, name))[t] == if CategoryLabel(t, cats) == name then multiset(ts)[t] else 0
    decreases |ts|
  {
    if ts != [] {
      LabelledCounts(ts[..|ts| - 1], cats, name);
      assert ts == ts[..|ts| - 1] + [ts[|ts| - 1]];
    }
  }

  /** Filtering two reorderings of the same transactions by type gives reorderings of each other. */
  lemma OfTypePermutes(a: seq<Transaction>, b: seq<Transaction>, k: TxType)
    requires multiset(a) == multiset(b)
    ensures multiset(OfType(a, k)) == multiset(OfType(b, k))
  {
    OfTypeCounts(a, k);
    OfTypeCounts(b, k);
    forall t ensures multiset(OfType(a, k))[t] == multiset(OfType(b, k))[t] {
    }
  }

  /** Filtering two reorderings of the same transactions by label gives reorderings of each other. */
  lemma LabelledPermutes(a: seq<Transaction>, b: seq<Transaction>, cats: seq<Category>, name: string)
    requires multiset(a) == multiset(b)
    ensures multiset(Labelled(a, cats, name)) == multiset(Labelled(b, cats, name))
  {
    LabelledCounts(a, cats, name);
    LabelledCounts(b, cats, name);
    forall t ensures multiset(Labelled(a, cats, name))[t] == multiset(Labelled(b, cats, name))[t] {
    }
  }

  /** The grouped values add up to the sum over all transactions. */
  lemma {:induction false} GroupTotal(ts: seq<Transaction>, cats: seq<Category>, f: Transaction -> real)
    ensures TotalOf(GroupByCategory(ts, cats, f)) == SumOf(ts, f)
    decreases |ts|
  {
    if ts != [] {
      GroupTotal(ts[..|ts| - 1], cats, f);
      AddToTotal(GroupByCategory(ts[..|ts| - 1], cats, f), CategoryLabel(ts[|ts| - 1], cats), f(ts[|ts| - 1]));
    }
  }

  /** Each name occurs once in the grouping. */
  lemma {:induction false} GroupDistinct(ts: seq<Transaction>, cats: seq<Category>, f: Transaction -> real)
    ensures DistinctKeys(GroupByCategory(ts, cats, f))
    decreases |ts|
  {
    if ts != [] {
      GroupDistinct(ts[..|ts| - 1], cats, f);
      AddToDistinct(GroupByCategory(ts[..|ts| - 1], cats, f), CategoryLabel(ts[|ts| - 1], cats), f(ts[|ts| - 1]));
    }
  }

  /** The names in the grouping are exactly the labels of the transactions. */
  lemma {:induction false} GroupKeys(ts: seq<Transaction>, cats: seq<Category>, f: Transaction -> real, name: string)
    ensures HasKey(GroupByCategory(ts, cats, f), name) <==> exists t :: t in ts && CategoryLabel(t, cats) == name
    decreases |ts|
  {
    if ts != [] {
      var init := ts[..|ts| - 1];
      GroupKeys(init, cats, f, name);
      var last := ts[|ts| - 1];
      assert ts == init + [last];
      if exists t :: t in init && CategoryLabel(t, cats) == name {
        var t :| t in init && CategoryLabel(t, cats) == name;
        assert t in ts;
      }
      if exists t :: t in ts && CategoryLabel(t, cats) == name {
        var t :| t in ts && CategoryLabel(t, cats) == name;
        assert t in init || t == last;
      }
    }
  }

  /** The value under a name is the sum over the transactions with that label. */
  lemma {:induction false} GroupValue(ts: seq<Transaction>, cats: seq<Category>, f: Transaction -> real, name: string)
    ensures ValueOf(GroupByCategory(ts, cats, f), name) == SumOf(Labelled(ts, cats, name), f)
    decreases |ts|
  {
    if ts != [] {
      var init, last := ts[..|ts| - 1], ts[|ts| - 1];
      GroupValue(init, cats, f, name);
      AddToValue(GroupByCategory(init, cats, f), CategoryLabel(last, cats), f(last), name);
      if CategoryLabel(last, cats) == name {
        SumOfAppend(Labelled(init, cats, name), [last], f);
      } else {
        assert Labelled(ts, cats, name) == Labelled(init, cats, name);
      }
    }
  }
}
