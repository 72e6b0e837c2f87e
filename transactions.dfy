/**
 * The transaction handlers: creation with validation and sign normalisation, the
 * filters of the list and summary queries, and the summary totals.
 */
module Transactions {
  import opened Base
  import opened Sorting
  import opened Ledger

  // ---------------------------------------------------------------------------
  // Creation
  // ---------------------------------------------------------------------------

  /**
   * The `amount` of a request body: absent (`undefined` or `null`), a JSON number, or a
   * string together with what `parseFloat` reads from it (`None` for NaN).
   */
  datatype AmountInput = Missing | Number(v: real) | Text(text: string, parsed: Option<real>)

  /**
   * A creation request. Absent strings are empty; `date` is the instant `new Date(date)`
   * denotes, `None` when the field is absent or empty.
   */
  datatype Body = Body(
    description: string,
    amount: AmountInput,
    kind: string,
    categoryId: Option<int>,
    date: Option<int>)

  /** The three 400 answers of creation. */
  datatype CreateError =
    | MissingFields   // a required field is missing or falsy
    | InvalidAmount   // a string amount that `parseFloat` cannot read
    | InvalidType     // a `type` outside the column's ENUM, refused by the storage layer

  /** `!amount`: absent, the number 0 or the empty string. */
  predicate AmountFalsy(a: AmountInput)
  {
    match a
    case Missing => true
    case Number(v) => v == 0.0
    case Text(s, _) => s == ""
  }

  /** `typeof amount !== 'number' && isNaN(parseFloat(amount))`. */
  predicate AmountUnreadable(a: AmountInput)
  {
    a.Text? && a.parsed.None?
  }

  /** `parseFloat(amount)` for an amount that is neither falsy nor unreadable. */
  function AmountValue(a: AmountInput): real
    requires !AmountFalsy(a) && !AmountUnreadable(a)
  {
    match a
    case Number(v) => v
    case Text(_, p) => p.value
  }

  function ParseType(s: string): Option<TxType>
  {
    if s == "income" then Some(Income)
    else if s == "expense" then Some(Expense)
    else None
  }

  /** Stored amount: `type === 'expense' ? -Math.abs(x) : Math.abs(x)`. */
  function Normalise(k: TxType, x: real): (r: real)
    ensures Abs(r) == Abs(x)
    ensures k == Expense ==> r <= 0.0
    ensures k == Income ==> r >= 0.0
  {
    if k == Expense then -Abs(x) else Abs(x)
  }

  /** Normalising an amount that is already normalised changes nothing. */
  lemma NormaliseIdempotent(k: TxType, x: real)
    ensures Normalise(k, Normalise(k, x)) == Normalise(k, x)
  {
  }

  /** `Category.findOne({ where: { name: 'Outros' } })?.id`. */
  function OutrosId(cats: seq<Category>): (r: Option<int>)
    ensures r.Some? ==> exists c :: c in cats && c.name == "Outros" && c.id == r.value
    ensures r.None? ==> forall c :: c in cats ==> c.name != "Outros"
    decreases |cats|
  {
    if cats == [] then None
    else if cats[0].name == "Outros" then Some(cats[0].id)
    else OutrosId(cats[1..])
  }

  /** `!categoryId`: absent or 0. */
  predicate CategoryFalsy(c: Option<int>)
  {
    c.None? || c == Some(0)
  }

  /**
   * The row that creation stores under the next `id` at instant `now`, or the reason
   * the request is refused.
   */
  function Create(b: Body, cats: seq<Category>, id: int, now: int): (r: Result<Transaction, CreateError>)
    ensures r == Err(MissingFields) <==> b.description == "" || AmountFalsy(b.amount) || b.kind == "" || b.date.None?
    ensures r == Err(InvalidAmount) <==>
      b.description != "" && !AmountFalsy(b.amount) && b.kind != "" && b.date.Some? && AmountUnreadable(b.amount)
    ensures r.Ok? <==>
      b.description != "" && !AmountFalsy(b.amount) && b.kind != "" && b.date.Some?
      && !AmountUnreadable(b.amount) && ParseType(b.kind).Some?
    ensures r.Ok? ==>
      && SignNormalised(r.value)
      && Abs(r.value.amount) == Abs(AmountValue(b.amount))
      && TypeName(r.value.kind) == b.kind
      && r.value.description == b.description
      && Some(r.value.date) == b.date
      && r.value.categoryId == (if CategoryFalsy(b.categoryId) then OutrosId(cats) else b.categoryId)
  {
    if b.description == "" || AmountFalsy(b.amount) || b.kind == "" || b.date.None? then Err(MissingFields)
    else if AmountUnreadable(b.amount) then Err(InvalidAmount)
    else
      match ParseType(b.kind)
      case None => Err(InvalidType)
      case Some(k) =>
        var category := if CategoryFalsy(b.categoryId) then OutrosId(cats) else b.categoryId;
        Ok(Transaction(id, b.description, Normalise(k, AmountValue(b.amount)), k, category, b.date.value, now))
  }

  // ---------------------------------------------------------------------------
  // Text matching
  // ---------------------------------------------------------------------------

  /**
   * The characters `String.prototype.trim` removes: the white space and line terminators
   * of ECMAScript (section 12.2 and 12.3 of ECMA-262), that is tab, vertical tab, form
   * feed, space, no-break space, the byte-order mark, the space separators of Unicode
   * and the four line terminators.
   */
  predicate IsSpace(c: char)
  {
    c == ' ' || c == '\t' || c == '\n' || c == '\r' || c == '\U{000B}' || c == '\U{000C}'
    || c == '\U{00A0}' || c == '\U{FEFF}' || c == '\U{1680}' || '\U{2000}' <= c <= '\U{200A}'
    || c == '\U{2028}' || c == '\U{2029}' || c == '\U{202F}' || c == '\U{205F}' || c == '\U{3000}'
  }

  function TrimStart(s: string): (r: string)
    ensures |r| <= |s| && r == s[|s| - |r|..]
    ensures r == [] || !IsSpace(r[0])
    ensures forall i :: 0 <= i < |s| - |r| ==> IsSpace(s[i])
    decreases |s|
  {
    if s != [] && IsSpace(s[0]) then TrimStart(s[1..]) else s
  }

  function TrimEnd(s: string): (r: string)
    ensures |r| <= |s| && r == s[..|r|]
    ensures r == [] || !IsSpace(r[|r| - 1])
    ensures forall i :: |r| <= i < |s| ==> IsSpace(s[i])
    decreases |s|
  {
    if s != [] && IsSpace(s[|s| - 1]) then TrimEnd(s[..|s| - 1]) else s
  }

  /** `s.trim()`: a slice of `s` with no white space at either end, all of whose removed characters are white space. */
  function Trim(s: string): (r: string)
    ensures r <= TrimStart(s) && |r| <= |s|
    ensures r == [] || (!IsSpace(r[0]) && !IsSpace(r[|r| - 1]))
    ensures exists i :: SliceBetweenSpaces(s, r, i)
  {
    var start := TrimStart(s);
    var r := TrimEnd(start);
    SliceOfSpaces(s, |s| - |start|, start, r);
    r
  }

  /** `r` is `s` from index `i` on, with only white space cut from either side. */
  predicate SliceBetweenSpaces(s: string, r: string, i: int)
  {
    && 0 <= i <= |s| - |r| && r == s[i..i + |r|]
    && (forall k :: 0 <= k < i ==> IsSpace(s[k]))
    && (forall k :: i + |r| <= k < |s| ==> IsSpace(s[k]))
  }

  lemma SliceOfSpaces(s: string, i: nat, start: string, r: string)
    requires i <= |s| && start == s[i..] && |r| <= |start| && r == start[..|r|]
    requires forall k :: 0 <= k < i ==> IsSpace(s[k])
    requires forall k :: |r| <= k < |start| ==> IsSpace(start[k])
    ensures SliceBetweenSpaces(s, r, i)
  {
    assert s[i..][..|r|] == s[i..i + |r|];
    forall k | i + |r| <= k < |s|
      ensures IsSpace(s[k])
    {
      assert s[k] == start[k - i];
    }
  }

  /** `term` occurs in `s` as a contiguous run: what `LIKE '%term%'` tests. */
  predicate Contains(s: string, term: string)
    decreases |s|
  {
    term <= s || (s != [] && Contains(s[1..], term))
  }

  lemma {:induction false} ContainsAt(s: string, term: string, i: int)
    requires 0 <= i <= |s| - |term| && s[i..i + |term|] == term
    ensures Contains(s, term)
    decreases i
  {
    if i > 0 {
      assert s[1..][i - 1..i - 1 + |term|] == term;
      ContainsAt(s[1..], term, i - 1);
    }
  }

  // ---------------------------------------------------------------------------
  // Query filters
  // ---------------------------------------------------------------------------

  /**
   * The query string of the list and summary requests. An absent or empty parameter is
   * `None` or `""`; a present one carries the number or instant it denotes.
   */
  datatype Query = Query(
    month: Option<int>,
    year: Option<int>,
    search: string,
    kind: string,
    category: Option<int>,
    dateFrom: Option<int>,
    dateTo: Option<int>,
    amountMin: Option<real>,
    amountMax: Option<real>)

  /** The condition on `date` that the where clause ends up with. */
  datatype DateCond = AnyDate | Between(window: Window) | Bounds(from: Option<int>, to: Option<int>)

  /** The where clause, one optional condition per column. */
  datatype Where = Where(
    description: Option<string>,
    date: DateCond,
    kind: Option<string>,
    categoryId: Option<int>,
    amountMin: Option<real>,
    amountMax: Option<real>)

  /** What the storage layer's `findAll({ where })` keeps. */
  predicate Matches(w: Where, t: Transaction)
  {
    && (w.description.Some? ==> Contains(t.description, w.description.value))
    && DateMatches(w.date, t.date)
    && (w.kind.Some? ==> TypeName(t.kind) == w.kind.value)
    && (w.categoryId.Some? ==> t.categoryId == w.categoryId)
    && (w.amountMin.Some? ==> t.amount >= w.amountMin.value)
    && (w.amountMax.Some? ==> t.amount <= w.amountMax.value)
  }

  /** What a date condition of the where clause keeps. */
  predicate DateMatches(d: DateCond, date: int)
  {
    match d
    case AnyDate => true
    case Between(window) => InWindow(date, window)
    case Bounds(from, to) => (from.Some? ==> from.value <= date) && (to.Some? ==> date <= to.value)
  }

  /** The dates a query selects: an explicit range alone, otherwise a given month and year. */
  predicate DateAccepted(q: Query, cal: Calendar, date: int)
  {
    if q.dateFrom.Some? || q.dateTo.Some? then
      (q.dateFrom.Some? ==> q.dateFrom.value <= date) && (q.dateTo.Some? ==> date <= q.dateTo.value)
    else if q.month.Some? && q.year.Some? then
      InWindow(date, MonthWindow(cal, q.year.value, q.month.value - 1))
    else true
  }

  /**
   * Which transactions a query selects, stated directly: the description contains the
   * search term (trimmed when `trimSearch`); an explicit date range decides the date
   * alone, otherwise a month and year restrict it to that month; type and category are
   * equalities; amount bounds are inclusive and apply to the signed stored amount.
   */
  predicate Accepts(q: Query, cal: Calendar, trimSearch: bool, t: Transaction)
  {
    && Contains(t.description, if trimSearch then Trim(q.search) else q.search)
    && DateAccepted(q, cal, t.date)
    && (q.kind != "" ==> TypeName(t.kind) == q.kind)
    && (q.category.Some? ==> t.categoryId == q.category)
    && (q.amountMin.Some? ==> t.amount >= q.amountMin.value)
    && (q.amountMax.Some? ==> t.amount <= q.amountMax.value)
  }

  /**
   * Builds the where clause field by field as both handlers do; `trimSearch` selects
   * the list handler's trimmed search over the summary handler's raw one.
   */
  method BuildWhere(q: Query, cal: Calendar, trimSearch: bool) returns (w: Where)
    ensures forall t :: Matches(w, t) <==> Accepts(q, cal, trimSearch, t)
  {
    w := Where(None, AnyDate, None, None, None, None);
    var description := SearchCondition(q, trimSearch);
    w := w.(description := description);
    if q.month.Some? && q.year.Some? {
      w := w.(date := Between(MonthWindow(cal, q.year.value, q.month.value - 1)));
    }
    if q.kind != "" {
      w := w.(kind := Some(q.kind));
    }
    if q.category.Some? {
      w := w.(categoryId := q.category);
    }
    var date := RangeCondition(q, w.date);
    w := w.(date := date);
    if q.amountMin.Some? || q.amountMax.Some? {
      if q.amountMin.Some? {
        w := w.(amountMin := q.amountMin);
      }
      if q.amountMax.Some? {
        w := w.(amountMax := q.amountMax);
      }
    }
    forall t ensures Matches(w, t) <==> Accepts(q, cal, trimSearch, t) {
      WhereMeaning(w, q, cal, trimSearch, t);
    }
  }

  /** The description condition: the list handler trims the term and skips a blank one. */
  method SearchCondition(q: Query, trimSearch: bool) returns (d: Option<string>)
    ensures SearchAgrees(d, q, trimSearch)
  {
    d := None;
    if trimSearch {
      if q.search != "" && Trim(q.search) != "" {
        d := Some(Trim(q.search));
      }
    } else if q.search != "" {
      d := Some(q.search);
    }
  }

  /** A `dateFrom` or `dateTo` replaces whatever date condition was set before. */
  method RangeCondition(q: Query, before: DateCond) returns (d: DateCond)
    ensures q.dateFrom.Some? || q.dateTo.Some? ==> d == Bounds(q.dateFrom, q.dateTo)
    ensures q.dateFrom.None? && q.dateTo.None? ==> d == before
  {
    d := before;
    if q.dateFrom.Some? || q.dateTo.Some? {
      d := Bounds(None, None);
      if q.dateFrom.Some? {
        d := d.(from := q.dateFrom);
      }
      if q.dateTo.Some? {
        d := d.(to := q.dateTo);
      }
    }
  }

  /** The description condition the search parameter leaves in the where clause. */
  predicate SearchAgrees(d: Option<string>, q: Query, trimSearch: bool)
  {
    if trimSearch then d == (if q.search != "" && Trim(q.search) != "" then Some(Trim(q.search)) else None)
    else d == (if q.search != "" then Some(q.search) else None)
  }

  /** The date condition the month, year and range parameters leave in the where clause. */
  predicate DateAgrees(d: DateCond, q: Query, cal: Calendar)
  {
    if q.dateFrom.Some? || q.dateTo.Some? then d == Bounds(q.dateFrom, q.dateTo)
    else if q.month.Some? && q.year.Some? then d == Between(MonthWindow(cal, q.year.value, q.month.value - 1))
    else d == AnyDate
  }

  lemma WhereMeaning(w: Where, q: Query, cal: Calendar, trimSearch: bool, t: Transaction)
    requires SearchAgrees(w.description, q, trimSearch) && DateAgrees(w.date, q, cal)
    requires w.kind == (if q.kind != "" then Some(q.kind) else None)
    requires w.categoryId == q.category && w.amountMin == q.amountMin && w.amountMax == q.amountMax
    ensures Matches(w, t) <==> Accepts(q, cal, trimSearch, t)
  {
    SearchMeaning(w.description, q, trimSearch, t.description);
    DateMeaning(w.date, q, cal, t.date);
  }

  lemma SearchMeaning(d: Option<string>, q: Query, trimSearch: bool, s: string)
    requires SearchAgrees(d, q, trimSearch)
    ensures (d.Some? ==> Contains(s, d.value)) <==> Contains(s, if trimSearch then Trim(q.search) else q.search)
  {
    ContainsAt(s, "", 0);
    assert Trim("") == "";
  }

  lemma DateMeaning(d: DateCond, q: Query, cal: Calendar, date: int)
    requires DateAgrees(d, q, cal)
    ensures DateMatches(d, date) <==> DateAccepted(q, cal, date)
  {
  }

  /** The rows the where clause keeps, in stored order. */
  function Select(rows: seq<Transaction>, w: Where): (r: seq<Transaction>)
    decreases |rows|
  {
    if rows == [] then []
    else Select(rows[..|rows| - 1], w) + (if Matches(w, rows[|rows| - 1]) then [rows[|rows| - 1]] else [])
  }

  /** The rows a query accepts, in stored order. */
  function Accepted(rows: seq<Transaction>, q: Query, cal: Calendar, trimSearch: bool): (r: seq<Transaction>)
    ensures forall t :: t in r <==> t in rows && Accepts(q, cal, trimSearch, t)
    ensures forall t :: multiset(r)[t] == if Accepts(q, cal, trimSearch, t) then multiset(rows)[t] else 0
    decreases |rows|
  {
    if rows == [] then []
    else
      var init, last := rows[..|rows| - 1], rows[|rows| - 1];
      assert rows == init + [last];
      Accepted(init, q, cal, trimSearch) + (if Accepts(q, cal, trimSearch, last) then [last] else [])
  }

  lemma {:induction false} SelectAccepted(rows: seq<Transaction>, w: Where, q: Query, cal: Calendar, trimSearch: bool)
    requires forall t :: Matches(w, t) <==> Accepts(q, cal, trimSearch, t)
    ensures Select(rows, w) == Accepted(rows, q, cal, trimSearch)
    decreases |rows|
  {
    if rows != [] {
      SelectAccepted(rows[..|rows| - 1], w, q, cal, trimSearch);
    }
  }

  /** An explicit date range replaces the month filter instead of narrowing it. */
  lemma RangeReplacesMonth(q: Query, cal: Calendar, trimSearch: bool, t: Transaction)
    requires q.dateFrom.Some? || q.dateTo.Some?
    ensures Accepts(q, cal, trimSearch, t) <==> Accepts(q.(month := None, year := None), cal, trimSearch, t)
  {
  }

  /**
   * Amount bounds compare the signed stored amount: once expenses are stored negative,
   * a positive lower bound keeps no expense and a negative upper bound keeps no income.
   */
  lemma AmountBoundsAreSigned(q: Query, cal: Calendar, trimSearch: bool, t: Transaction)
    requires SignNormalised(t)
    ensures t.kind == Expense && t.amount != 0.0 && q.amountMin.Some? && q.amountMin.value > 0.0
            ==> !Accepts(q, cal, trimSearch, t)
    ensures t.kind == Income && t.amount != 0.0 && q.amountMax.Some? && q.amountMax.value < 0.0
            ==> !Accepts(q, cal, trimSearch, t)
  {
  }

  // ---------------------------------------------------------------------------
  // List and summary
  // ---------------------------------------------------------------------------

  /** `le` for `ORDER BY date DESC`: the later transaction comes first. */
  function LaterFirst(a: Transaction, b: Transaction): bool
  {
    a.date >= b.date
  }

  lemma LaterFirstTotal()
    ensures TotalPreorder(LaterFirst)
  {
  }

  /** The list handler: the accepted rows, latest date first, ties in stored order. */
  method GetAll(rows: seq<Transaction>, q: Query, cal: Calendar) returns (r: seq<Transaction>)
    ensures r == InsertionSort(Accepted(rows, q, cal, true), LaterFirst)
    ensures forall t :: t in r <==> t in rows && Accepts(q, cal, true, t)
    ensures forall t :: multiset(r)[t] == if Accepts(q, cal, true, t) then multiset(rows)[t] else 0
    ensures forall i, j :: 0 <= i < j < |r| ==> r[i].date >= r[j].date
  {
    var w := BuildWhere(q, cal, true);
    SelectAccepted(rows, w, q, cal, true);
    r := InsertionSort(Select(rows, w), LaterFirst);
    LaterFirstTotal();
    InsertionSortSorted(Accepted(rows, q, cal, true), LaterFirst);
    InsertionSortPermutes(Accepted(rows, q, cal, true), LaterFirst);
    assert multiset(r) == multiset(Accepted(rows, q, cal, true));
    forall t ensures t in r <==> t in Accepted(rows, q, cal, true) {
      assert t in r <==> t in multiset(r);
    }
  }

  /** The summary answer: totals of magnitudes and expense magnitudes per category label. */
  datatype Summary = Summary(income: real, expenses: real, balance: real, categoryExpenses: Totals)

  function Summarize(ts: seq<Transaction>, cats: seq<Category>): (s: Summary)
    ensures s.income >= 0.0 && s.expenses >= 0.0
    ensures s.balance == s.income - s.expenses
    ensures DistinctKeys(s.categoryExpenses)
    ensures TotalOf(s.categoryExpenses) == s.expenses
    ensures forall name :: HasKey(s.categoryExpenses, name) <==>
      exists t :: t in ts && t.kind == Expense && CategoryLabel(t, cats) == name
    ensures forall name ::
      ValueOf(s.categoryExpenses, name) == SumOf(Labelled(OfType(ts, Expense), cats, name), AbsAmount)
  {
    var income := SumOf(OfType(ts, Income), AbsAmount);
    var expenses := SumOf(OfType(ts, Expense), AbsAmount);
    var groups := GroupByCategory(OfType(ts, Expense), cats, AbsAmount);
    SumOfAbsNonNegative(OfType(ts, Income));
    SumOfAbsNonNegative(OfType(ts, Expense));
    GroupTotal(OfType(ts, Expense), cats, AbsAmount);
    GroupDistinct(OfType(ts, Expense), cats, AbsAmount);
    assert forall name :: HasKey(groups, name) <==>
      exists t :: t in ts && t.kind == Expense && CategoryLabel(t, cats) == name
    by {
      forall name ensures HasKey(groups, name) <==>
        exists t :: t in ts && t.kind == Expense && CategoryLabel(t, cats) == name
      {
        GroupKeys(OfType(ts, Expense), cats, AbsAmount, name);
      }
    }
    assert forall name :: ValueOf(groups, name) == SumOf(Labelled(OfType(ts, Expense), cats, name), AbsAmount)
    by {
      forall name ensures ValueOf(groups, name) == SumOf(Labelled(OfType(ts, Expense), cats, name), AbsAmount) {
        GroupValue(OfType(ts, Expense), cats, AbsAmount, name);
      }
    }
    Summary(income, expenses, income - expenses, groups)
  }

  /** The summary handler as written: the same filters as the list, except that the search term is not trimmed. */
  method GetSummary(rows: seq<Transaction>, cats: seq<Category>, q: Query, cal: Calendar) returns (s: Summary)
    ensures s == Summarize(Accepted(rows, q, cal, false), cats)
  {
    var w := BuildWhere(q, cal, false);
    SelectAccepted(rows, w, q, cal, false);
    s := Summarize(Select(rows, w), cats);
  }

  /**
   * A search term with surrounding blanks: the list keeps a transaction that the summary
   * leaves out, so the summary totals do not describe the listed rows.
   */
  lemma SummarySearchDiffersFromList(cal: Calendar)
    ensures var q := Query(None, None, " Uber", "", None, None, None, None, None);
            var t := Transaction(1, "Uber", -20.0, Expense, None, 0, 0);
            Accepts(q, cal, true, t) && !Accepts(q, cal, false, t)
  {
    var q := Query(None, None, " Uber", "", None, None, None, None, None);
    var t := Transaction(1, "Uber", -20.0, Expense, None, 0, 0);
    TrimmedSearchFound();
    NotContainsLonger("Uber", " Uber");
    assert DateAccepted(q, cal, t.date);
  }

  lemma TrimmedSearchFound()
    ensures Contains("Uber", Trim(" Uber"))
  {
    var word := "Uber";
    assert " Uber" == [' '] + word;
    TrimPadded(word);
    assert word <= word;
  }

  /** A word with no white space at its ends, after one leading space, trims back to itself. */
  lemma TrimPadded(w: string)
    requires w != [] && !IsSpace(w[0]) && !IsSpace(w[|w| - 1])
    ensures Trim([' '] + w) == w
  {
    assert ([' '] + w)[1..] == w;
  }

  lemma {:induction false} NotContainsLonger(s: string, term: string)
    requires |term| > |s|
    ensures !Contains(s, term)
    decreases |s|
  {
    if s != [] {
      NotContainsLonger(s[1..], term);
    }
  }

  /**
   * The summary with the list's trimmed search, which its "same filters as the list"
   * intent calls for.
   */
  method GetSummaryTrimmed(rows: seq<Transaction>, cats: seq<Category>, q: Query, cal: Calendar) returns (s: Summary)
    ensures s == Summarize(Accepted(rows, q, cal, true), cats)
  {
    var w := BuildWhere(q, cal, true);
    SelectAccepted(rows, w, q, cal, true);
    s := Summarize(Select(rows, w), cats);
  }

  /**
   * With the trimmed search the summary covers exactly the rows the list returns: the
   * summary of the accepted rows (what `GetSummaryTrimmed` answers) has the same totals,
   * the same category labels and the same per-category expenses as the summary of the
   * listed rows, which are those rows sorted newest first.
   */
  lemma SummaryCoversList(rows: seq<Transaction>, cats: seq<Category>, q: Query, cal: Calendar)
    ensures Summarize(InsertionSort(Accepted(rows, q, cal, true), LaterFirst), cats).income
            == Summarize(Accepted(rows, q, cal, true), cats).income
    ensures Summarize(InsertionSort(Accepted(rows, q, cal, true), LaterFirst), cats).expenses
            == Summarize(Accepted(rows, q, cal, true), cats).expenses
    ensures Summarize(InsertionSort(Accepted(rows, q, cal, true), LaterFirst), cats).balance
            == Summarize(Accepted(rows, q, cal, true), cats).balance
    ensures forall name ::
      HasKey(Summarize(InsertionSort(Accepted(rows, q, cal, true), LaterFirst), cats).categoryExpenses, name)
      <==> HasKey(Summarize(Accepted(rows, q, cal, true), cats).categoryExpenses, name)
    ensures forall name ::
      ValueOf(Summarize(InsertionSort(Accepted(rows, q, cal, true), LaterFirst), cats).categoryExpenses, name)
      == ValueOf(Summarize(Accepted(rows, q, cal, true), cats).categoryExpenses, name)
  {
    var accepted := Accepted(rows, q, cal, true);
    var listed := InsertionSort(accepted, LaterFirst);
    InsertionSortPermutes(accepted, LaterFirst);
    SummaryOfReordering(accepted, listed, cats);
  }

  /** Two reorderings of the same transactions have the same totals and per-label expenses. */
  lemma SummaryOfReordering(a: seq<Transaction>, b: seq<Transaction>, cats: seq<Category>)
    requires multiset(a) == multiset(b)
    ensures Summarize(a, cats).income == Summarize(b, cats).income
    ensures Summarize(a, cats).expenses == Summarize(b, cats).expenses
    ensures Summarize(a, cats).balance == Summarize(b, cats).balance
    ensures forall name :: HasKey(Summarize(a, cats).categoryExpenses, name) <==> HasKey(Summarize(b, cats).categoryExpenses, name)
    ensures forall name :: ValueOf(Summarize(a, cats).categoryExpenses, name) == ValueOf(Summarize(b, cats).categoryExpenses, name)
  {
    TypeSumsOfReordering(a, b, Income);
    TypeSumsOfReordering(a, b, Expense);
    KeysOfReordering(a, b, cats);
    ValuesOfReordering(a, b, cats);
  }

  lemma KeysOfReordering(a: seq<Transaction>, b: seq<Transaction>, cats: seq<Category>)
    requires multiset(a) == multiset(b)
    ensures forall name :: HasKey(Summarize(a, cats).categoryExpenses, name) <==> HasKey(Summarize(b, cats).categoryExpenses, name)
  {
    assert forall t :: t in a <==> t in multiset(b);
  }

  lemma ValuesOfReordering(a: seq<Transaction>, b: seq<Transaction>, cats: seq<Category>)
    requires multiset(a) == multiset(b)
    ensures forall name :: ValueOf(Summarize(a, cats).categoryExpenses, name) == ValueOf(Summarize(b, cats).categoryExpenses, name)
  {
    forall name ensures ValueOf(Summarize(a, cats).categoryExpenses, name) == ValueOf(Summarize(b, cats).categoryExpenses, name) {
      LabelSumOfReordering(a, b, cats, name);
    }
  }

  lemma TypeSumsOfReordering(a: seq<Transaction>, b: seq<Transaction>, k: TxType)
    requires multiset(a) == multiset(b)
    ensures SumOf(OfType(a, k), AbsAmount) == SumOf(OfType(b, k), AbsAmount)
  {
    OfTypePermutes(a, b, k);
    SumOfPermutation(OfType(a, k), OfType(b, k), AbsAmount);
  }

  lemma LabelSumOfReordering(a: seq<Transaction>, b: seq<Transaction>, cats: seq<Category>, name: string)
    requires multiset(a) == multiset(b)
    ensures SumOf(Labelled(OfType(a, Expense), cats, name), AbsAmount) == SumOf(Labelled(OfType(b, Expense), cats, name), AbsAmount)
  {
    OfTypePermutes(a, b, Expense);
    LabelledPermutes(OfType(a, Expense), OfType(b, Expense), cats, name);
    SumOfPermutation(Labelled(OfType(a, Expense), cats, name), Labelled(OfType(b, Expense), cats, name), AbsAmount);
  }

}
