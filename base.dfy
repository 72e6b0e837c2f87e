/**
 * Numbers, dates and outcomes shared by the controllers and views of the finance app.
 *
 * Money is an exact `real`. Instants are integer milliseconds since the epoch, the
 * unit of JavaScript's `Date` arithmetic. A JavaScript division by zero does not fail:
 * it yields an infinity or NaN, which `Ext` makes explicit so that no division in the
 * app needs a precondition.
 */
module Base {

  datatype Option<T> = None | Some(value: T)

  datatype Result<T, E> = Ok(value: T) | Err(error: E)

  /** The error a handler reports when no row has the requested id (HTTP 404). */
  datatype NotFound = NotFound

  /** Milliseconds in a day: `1000 * 60 * 60 * 24`. */
  const DayMs: int := 86400000

  function Abs(x: real): (r: real)
    ensures r >= 0.0 && (r == x || r == -x)
  {
    if x < 0.0 then -x else x
  }

  function Max(a: real, b: real): (r: real)
    ensures r >= a && r >= b && (r == a || r == b)
  {
    if a >= b then a else b
  }

  /**
   * The guard of an amount typed into a form, `if (!amount || amount <= 0) return`:
   * an empty field (`None`) or a non-positive number sends nothing.
   */
  function AcceptedAmount(input: Option<real>): (r: Option<real>)
    ensures r.Some? <==> input.Some? && input.value > 0.0
    ensures r.Some? ==> r == input
  {
    if input.None? || input.value <= 0.0 then None else input
  }

  // ---------------------------------------------------------------------------
  // Integer ceiling division (`Math.ceil(ms / unit)` on whole milliseconds)
  // ---------------------------------------------------------------------------

  /** `Math.ceil(a / b)` for a positive divisor: the least `r` with `r * b >= a`. */
  function CeilDiv(a: int, b: int): (r: int)
    requires b > 0
    ensures r * b >= a
    ensures (r - 1) * b < a
  {
    -((-a) / b)
  }

  /** Whole days from `now` until `instant`, rounded up, as `Math.ceil((instant - now) / 86400000)`. */
  function DaysUntil(instant: int, now: int): (d: int)
    ensures d * DayMs >= instant - now
    ensures (d - 1) * DayMs < instant - now
  {
    CeilDiv(instant - now, DayMs)
  }

  /** A day count is negative exactly when the instant lies at least one full day in the past. */
  lemma DaysUntilNegative(instant: int, now: int)
    ensures DaysUntil(instant, now) < 0 <==> instant - now <= -DayMs
  {
    var d := DaysUntil(instant, now);
    if d < 0 {
      assert d * DayMs <= -DayMs;
    }
  }

  /** `Math.ceil(x)` of a real: the least integer not below `x`. */
  function Ceil(x: real): (n: int)
    ensures n as real >= x
    ensures (n - 1) as real < x
  {
    -((-x).Floor)
  }

  // ---------------------------------------------------------------------------
  // Extended numbers: what a JavaScript division can produce
  // ---------------------------------------------------------------------------

  /** A JavaScript number that may come out of a division: finite, +Infinity, -Infinity or NaN. */
  datatype Ext = Fin(v: real) | PosInf | NegInf | NaN

  /** `a / b` as JavaScript computes it on finite operands. */
  function Div(a: real, b: real): (q: Ext)
    ensures b != 0.0 ==> q.Fin? && q.v * b == a
    ensures b == 0.0 ==> (q == PosInf <==> a > 0.0) && (q == NegInf <==> a < 0.0) && (q == NaN <==> a == 0.0)
  {
    if b != 0.0 then Fin(a / b)
    else if a > 0.0 then PosInf
    else if a < 0.0 then NegInf
    else NaN
  }

  /** `q * k` for a positive constant `k` (the `* 100` that makes a ratio a percentage). */
  function Scale(q: Ext, k: real): (r: Ext)
    requires k > 0.0
    ensures q.Fin? <==> r.Fin?
    ensures r.Fin? ==> r.v == q.v * k
    ensures !q.Fin? ==> r == q
  {
    match q
    case Fin(v) => Fin(v * k)
    case _ => q
  }

  /** `(a / b) * 100`, the percentage expression used throughout the app. */
  function Percent(a: real, b: real): Ext
  {
    Scale(Div(a, b), 100.0)
  }

  /** `q - c` for a finite `c`. */
  function Minus(q: Ext, c: real): (r: Ext)
    ensures q.Fin? ==> r == Fin(q.v - c)
    ensures !q.Fin? ==> r == q
  {
    match q
    case Fin(v) => Fin(v - c)
    case _ => q
  }

  /** `-q`. */
  function Neg(q: Ext): Ext
  {
    match q
    case Fin(v) => Fin(-v)
    case PosInf => NegInf
    case NegInf => PosInf
    case NaN => NaN
  }

  /**
   * `q / d` for a finite divisor `d`. A zero divisor is the positive zero that a
   * JavaScript sum starting at 0 produces, so an infinity keeps its sign.
   */
  function DivBy(q: Ext, d: real): Ext
  {
    match q
    case Fin(v) => Div(v, d)
    case PosInf => if d >= 0.0 then PosInf else NegInf
    case NegInf => if d >= 0.0 then NegInf else PosInf
    case NaN => NaN
  }

  /** `Math.min(q, c)`: NaN stays NaN. */
  function MinWith(q: Ext, c: real): (r: Ext)
    ensures q != NaN ==> Le(r, c)
    ensures q.Fin? && q.v <= c ==> r == q
    ensures q == NaN ==> r == NaN
  {
    match q
    case Fin(v) => if v <= c then Fin(v) else Fin(c)
    case PosInf => Fin(c)
    case NegInf => NegInf
    case NaN => NaN
  }

  // Comparisons of an extended number with a finite constant, as IEEE 754 defines them:
  // every comparison with NaN is false.

  predicate Ge(q: Ext, c: real)
  {
    match q
    case Fin(v) => v >= c
    case PosInf => true
    case NegInf => false
    case NaN => false
  }

  predicate Gt(q: Ext, c: real)
  {
    match q
    case Fin(v) => v > c
    case PosInf => true
    case NegInf => false
    case NaN => false
  }

  predicate Le(q: Ext, c: real)
  {
    match q
    case Fin(v) => v <= c
    case PosInf => false
    case NegInf => true
    case NaN => false
  }

  predicate Lt(q: Ext, c: real)
  {
    match q
    case Fin(v) => v < c
    case PosInf => false
    case NegInf => true
    case NaN => false
  }

  /**
   * For a positive base, a percentage threshold can be read without division:
   * `(a / b) * 100 >= t` exactly when `a * 100 >= t * b`.
   */
  lemma PercentAtLeast(a: real, b: real, t: real)
    requires b > 0.0
    ensures Ge(Percent(a, b), t) <==> a * 100.0 >= t * b
    ensures Lt(Percent(a, b), t) <==> a * 100.0 < t * b
    ensures Le(Percent(a, b), t) <==> a * 100.0 <= t * b
    ensures Gt(Percent(a, b), t) <==> a * 100.0 > t * b
  {
    var q := a / b;
    assert Percent(a, b) == Fin(q * 100.0);
    assert q * b == a;
    if q * 100.0 >= t {
      assert q * 100.0 * b >= t * b;
    } else {
      assert q * 100.0 * b < t * b;
    }
    if q * 100.0 <= t {
      assert q * 100.0 * b <= t * b;
    } else {
      assert q * 100.0 * b > t * b;
    }
  }

  /** With a zero base the percentage is +Infinity, -Infinity or NaN, so only a positive numerator reaches a threshold. */
  lemma PercentOfZero(a: real, t: real)
    ensures Ge(Percent(a, 0.0), t) <==> a > 0.0
    ensures Lt(Percent(a, 0.0), t) <==> a < 0.0
  {
  }

  // ---------------------------------------------------------------------------
  // Calendar months
  // ---------------------------------------------------------------------------

  /** The instants from `start` to `end`, both included: Sequelize's `Op.between`. */
  datatype Window = Window(start: int, end: int)

  predicate InWindow(t: int, w: Window)
  {
    w.start <= t <= w.end
  }

  /**
   * The local calendar, which this model does not compute: `cal(y, m)` for a month index
   * `0 <= m < 12` is the window from `new Date(y, m, 1)` to `new Date(y, m + 1, 0)`,
   * that is from midnight of the first day to midnight of the last day of that month.
   */
  type Calendar = (int, int) -> Window

  /**
   * `new Date(year, monthIndex, ...)` accepts any month index and carries whole years
   * over: the result is the normalised (year, month index) pair.
   */
  function NormalizeMonth(year: int, monthIndex: int): (ym: (int, int))
    ensures 0 <= ym.1 < 12
    ensures ym.0 * 12 + ym.1 == year * 12 + monthIndex
  {
    (year + monthIndex / 12, monthIndex % 12)
  }

  /** The window of the month `monthIndex` (0-based, possibly out of range) of `year`. */
  function MonthWindow(cal: Calendar, year: int, monthIndex: int): Window
  {
    var ym := NormalizeMonth(year, monthIndex);
    cal(ym.0, ym.1)
  }

  // ---------------------------------------------------------------------------
  // Tables keyed by id
  // ---------------------------------------------------------------------------

  /** No two rows share an id: what an auto-increment primary key guarantees. */
  ghost predicate DistinctIds<T>(s: seq<T>, idOf: T -> int)
  {
    forall i, j :: 0 <= i < j < |s| ==> idOf(s[i]) != idOf(s[j])
  }

  /** The position of the row with the given id (`findByPk`), if any. */
  function IndexOfId<T>(s: seq<T>, idOf: T -> int, id: int): (r: Option<nat>)
    ensures r.Some? ==> r.value < |s| && idOf(s[r.value]) == id
    ensures r.Some? ==> forall k :: 0 <= k < r.value ==> idOf(s[k]) != id
    ensures r.None? ==> forall k :: 0 <= k < |s| ==> idOf(s[k]) != id
    decreases |s|
  {
    if s == [] then None
    else if idOf(s[0]) == id then Some(0)
    else
      match IndexOfId(s[1..], idOf, id)
      case None => None
      case Some(k) => Some(k + 1)
  }

  /** `s` without its element at `i` (`destroy` of one row). */
  function RemoveAt<T>(s: seq<T>, i: nat): (r: seq<T>)
    requires i < |s|
    ensures |r| == |s| - 1
    ensures forall k :: 0 <= k < |r| ==> r[k] == s[if k < i then k else k + 1]
  {
    s[..i] + s[i + 1..]
  }

  /** Removing a row keeps the others distinct and leaves no row with its id. */
  lemma RemoveDistinct<T>(s: seq<T>, idOf: T -> int, i: nat)
    requires i < |s| && DistinctIds(s, idOf)
    ensures DistinctIds(RemoveAt(s, i), idOf)
    ensures forall k :: 0 <= k < |RemoveAt(s, i)| ==> idOf(RemoveAt(s, i)[k]) != idOf(s[i])
  {
  }

  /** Replacing a row by one with the same id keeps the ids distinct. */
  lemma ReplaceDistinct<T>(s: seq<T>, idOf: T -> int, i: nat, x: T)
    requires i < |s| && DistinctIds(s, idOf) && idOf(x) == idOf(s[i])
    ensures DistinctIds(s[i := x], idOf)
  {
  }
}
