/** The statistics page: per-category totals, the comparison with the same month of the
    previous year, the day-by-day series of a month and the two ratios it shows. */
module Statistics {
  import opened Wrappers
  import opened Seqs
  import opened Calendar
  import opened Finance

  // ---------------------------------------------------------------------------
  // Per-category totals

  /** One `{ name, value }` entry of `aggregateByCategory`. */
  datatype CategorySum = CategorySum(name: string, value: real)

  function CategoryIs(name: string): Transaction -> bool {
    (t: Transaction) => t.category == name
  }

  /** The sum of the amounts of the entries filed under `name`. */
  function CategoryTotal(ts: seq<Transaction>, name: string): real {
    SumAmounts(Filter(ts, CategoryIs(name)))
  }

  /** The position of the first entry of `ts` filed under `name`, or `|ts|` when there is none. */
  function FirstIndex(ts: seq<Transaction>, name: string): (i: nat)
    ensures i <= |ts|
    ensures i < |ts| ==> ts[i].category == name
    ensures forall j :: 0 <= j < i ==> ts[j].category != name
  {
    if |ts| == 0 then 0
    else if ts[0].category == name then 0
    else 1 + FirstIndex(ts[1..], name)
  }

  /** The position of the entry called `name` in an accumulator, or `|acc|` when there is none. */
  function IndexOfName(acc: seq<CategorySum>, name: string): (i: nat)
    ensures i <= |acc|
    ensures i < |acc| ==> acc[i].name == name
    ensures forall j :: 0 <= j < i ==> acc[j].name != name
  {
    if |acc| == 0 then 0
    else if acc[0].name == name then 0
    else 1 + IndexOfName(acc[1..], name)
  }

  /** `result[name] = (result[name] || 0) + amount`: the entry's value grows in place, or a new
      entry is added after the others. */
  function Bump(acc: seq<CategorySum>, name: string, amount: real): seq<CategorySum> {
    var i := IndexOfName(acc, name);
    if i < |acc| then acc[i := CategorySum(name, acc[i].value + amount)]
    else acc + [CategorySum(name, amount)]
  }

  /** The accumulator once `forEach` has visited every entry of `ts`, in order. */
  function Accumulate(ts: seq<Transaction>): seq<CategorySum> {
    if |ts| == 0 then []
    else
      var t := ts[|ts| - 1];
      Bump(Accumulate(ts[..|ts| - 1]), t.category, t.amount)
  }

  function SumValues(r: seq<CategorySum>): real {
    if |r| == 0 then 0.0 else r[0].value + SumValues(r[1..])
  }

  ghost predicate DistinctNames(r: seq<CategorySum>) {
    forall i, j :: 0 <= i < j < |r| ==> r[i].name != r[j].name
  }

  ghost predicate ValuesAreTotals(r: seq<CategorySum>, ts: seq<Transaction>) {
    forall i :: 0 <= i < |r| ==> r[i].value == CategoryTotal(ts, r[i].name)
  }

  /** Every entry names a category some transaction is filed under, and every transaction's
      category has an entry. */
  ghost predicate SameCategories(r: seq<CategorySum>, ts: seq<Transaction>) {
    (forall i :: 0 <= i < |r| ==> FirstIndex(ts, r[i].name) < |ts|)
    && (forall k :: 0 <= k < |ts| ==> IndexOfName(r, ts[k].category) < |r|)
  }

  /** Entries come in the order their categories first appear in `ts`. */
  ghost predicate FirstSeenOrder(r: seq<CategorySum>, ts: seq<Transaction>) {
    forall i, j :: 0 <= i < j < |r| ==> FirstIndex(ts, r[i].name) < FirstIndex(ts, r[j].name)
  }

  ghost predicate Summarises(r: seq<CategorySum>, ts: seq<Transaction>) {
    DistinctNames(r) && ValuesAreTotals(r, ts) && SameCategories(r, ts) && FirstSeenOrder(r, ts)
    && SumValues(r) == SumAmounts(ts)
  }

  /** `aggregateByCategory(transactions, type)`: one entry per category used by a transaction
      of that type, holding the sum of those transactions' amounts, in order of first use;
      together the entries add up to the type's total. */
  function AggregateByCategory(ts: seq<Transaction>, kind: Kind): (r: seq<CategorySum>)
    ensures Summarises(r, Filter(ts, KindIs(kind)))
    ensures SumValues(r) == TotalOf(ts, kind)
  {
    var matching := Filter(ts, KindIs(kind));
    AccumulateSummarises(matching);
    Accumulate(matching)
  }

  lemma {:induction false} FirstIndexSnoc(p: seq<Transaction>, t: Transaction, name: string)
    ensures FirstIndex(p + [t], name) ==
      if FirstIndex(p, name) < |p| then FirstIndex(p, name)
      else if t.category == name then |p| else |p| + 1
  {
    if |p| > 0 {
      assert (p + [t])[0] == p[0];
      assert (p + [t])[1..] == p[1..] + [t];
      FirstIndexSnoc(p[1..], t, name);
    }
  }

  lemma {:induction false} IndexOfNameSnoc(r: seq<CategorySum>, x: CategorySum, name: string)
    ensures IndexOfName(r + [x], name) ==
      if IndexOfName(r, name) < |r| then IndexOfName(r, name)
      else if x.name == name then |r| else |r| + 1
  {
    if |r| > 0 {
      assert (r + [x])[0] == r[0];
      assert (r + [x])[1..] == r[1..] + [x];
      IndexOfNameSnoc(r[1..], x, name);
    }
  }

  lemma {:induction false} IndexOfNameSameNames(r: seq<CategorySum>, r2: seq<CategorySum>, name: string)
    requires |r| == |r2|
    requires forall i :: 0 <= i < |r| ==> r[i].name == r2[i].name
    ensures IndexOfName(r, name) == IndexOfName(r2, name)
  {
    if |r| > 0 {
      IndexOfNameSameNames(r[1..], r2[1..], name);
    }
  }

  lemma {:induction false} CategoryTotalSnoc(p: seq<Transaction>, t: Transaction, name: string)
    ensures CategoryTotal(p + [t], name) ==
      CategoryTotal(p, name) + (if t.category == name then t.amount else 0.0)
  {
    var c := CategoryIs(name);
    FilterConcat(p, [t], c);
    SumAmountsConcat(Filter(p, c), Filter([t], c));
    assert [t][1..] == [];
    if t.category == name {
      assert Filter([t], c) == [t];
      assert SumAmounts([t]) == t.amount + SumAmounts([]);
    } else {
      assert Filter([t], c) == [];
    }
  }

  lemma {:induction false} CategoryTotalAbsent(p: seq<Transaction>, name: string)
    requires FirstIndex(p, name) == |p|
    ensures CategoryTotal(p, name) == 0.0
  {
    FilterAllOrNone(p, CategoryIs(name));
  }

  lemma {:induction false} SumValuesUpdate(r: seq<CategorySum>, i: nat, x: CategorySum)
    requires i < |r|
    ensures SumValues(r[i := x]) == SumValues(r) - r[i].value + x.value
  {
    if i > 0 {
      assert r[i := x][1..] == r[1..][i - 1 := x];
      SumValuesUpdate(r[1..], i - 1, x);
    } else {
      assert r[i := x][1..] == r[1..];
    }
  }

  lemma {:induction false} SumValuesAppend(r: seq<CategorySum>, x: CategorySum)
    ensures SumValues(r + [x]) == SumValues(r) + x.value
  {
    if |r| > 0 {
      assert (r + [x])[1..] == r[1..] + [x];
      SumValuesAppend(r[1..], x);
    } else {
      assert [x][1..] == [];
    }
  }

  lemma {:induction false} SumAmountsSnoc(p: seq<Transaction>, t: Transaction)
    ensures SumAmounts(p + [t]) == SumAmounts(p) + t.amount
  {
    SumAmountsConcat(p, [t]);
    assert [t][1..] == [];
  }

  /** Names already seen keep their first position when one more transaction is visited. */
  lemma {:induction false} FirstIndexStable(r: seq<CategorySum>, p: seq<Transaction>, t: Transaction)
    requires forall j :: 0 <= j < |r| ==> FirstIndex(p, r[j].name) < |p|
    ensures forall j :: 0 <= j < |r| ==> FirstIndex(p + [t], r[j].name) == FirstIndex(p, r[j].name)
  {
    forall j | 0 <= j < |r|
      ensures FirstIndex(p + [t], r[j].name) == FirstIndex(p, r[j].name)
    {
      FirstIndexSnoc(p, t, r[j].name);
    }
  }

  /** Totals of the names other than the visited transaction's category do not move. */
  lemma {:induction false} OtherTotalsStable(r: seq<CategorySum>, p: seq<Transaction>, t: Transaction)
    ensures forall j :: 0 <= j < |r| && r[j].name != t.category ==>
      CategoryTotal(p + [t], r[j].name) == CategoryTotal(p, r[j].name)
  {
    forall j | 0 <= j < |r| && r[j].name != t.category
      ensures CategoryTotal(p + [t], r[j].name) == CategoryTotal(p, r[j].name)
    {
      CategoryTotalSnoc(p, t, r[j].name);
    }
  }

  // Visiting a transaction whose category already has an entry: the entry's value grows and
  // the names stay where they are.

  lemma {:induction false} ExistingDistinct(r: seq<CategorySum>, name: string, amount: real)
    requires DistinctNames(r)
    requires IndexOfName(r, name) < |r|
    ensures DistinctNames(Bump(r, name, amount))
  {
    var r2 := Bump(r, name, amount);
    assert forall j :: 0 <= j < |r| ==> r2[j].name == r[j].name;
  }

  lemma {:induction false} ExistingValues(r: seq<CategorySum>, p: seq<Transaction>, t: Transaction)
    requires DistinctNames(r) && ValuesAreTotals(r, p)
    requires IndexOfName(r, t.category) < |r|
    ensures ValuesAreTotals(Bump(r, t.category, t.amount), p + [t])
  {
    var i := IndexOfName(r, t.category);
    var r2 := Bump(r, t.category, t.amount);
    OtherTotalsStable(r, p, t);
    CategoryTotalSnoc(p, t, t.category);
    forall j | 0 <= j < |r2|
      ensures r2[j].value == CategoryTotal(p + [t], r2[j].name)
    {
      if j != i {
        assert r2[j] == r[j];
        assert r[j].name != r[i].name;
      }
    }
  }

  lemma {:induction false} ExistingCategories(r: seq<CategorySum>, p: seq<Transaction>, t: Transaction)
    requires SameCategories(r, p)
    requires IndexOfName(r, t.category) < |r|
    ensures SameCategories(Bump(r, t.category, t.amount), p + [t])
  {
    var q := p + [t];
    var r2 := Bump(r, t.category, t.amount);
    assert forall j :: 0 <= j < |r| ==> r2[j].name == r[j].name;
    FirstIndexStable(r, p, t);
    forall j | 0 <= j < |r2|
      ensures FirstIndex(q, r2[j].name) < |q|
    {
      assert r2[j].name == r[j].name;
    }
    forall k | 0 <= k < |q|
      ensures IndexOfName(r2, q[k].category) < |r2|
    {
      IndexOfNameSameNames(r, r2, q[k].category);
      if k < |p| {
        assert q[k] == p[k];
      }
    }
  }

  lemma {:induction false} ExistingOrder(r: seq<CategorySum>, p: seq<Transaction>, t: Transaction)
    requires SameCategories(r, p) && FirstSeenOrder(r, p)
    requires IndexOfName(r, t.category) < |r|
    ensures FirstSeenOrder(Bump(r, t.category, t.amount), p + [t])
  {
    var r2 := Bump(r, t.category, t.amount);
    assert forall j :: 0 <= j < |r| ==> r2[j].name == r[j].name;
    FirstIndexStable(r, p, t);
  }

  lemma {:induction false} ExistingSum(r: seq<CategorySum>, p: seq<Transaction>, t: Transaction)
    requires SumValues(r) == SumAmounts(p)
    requires IndexOfName(r, t.category) < |r|
    ensures SumValues(Bump(r, t.category, t.amount)) == SumAmounts(p + [t])
  {
    var i := IndexOfName(r, t.category);
    SumValuesUpdate(r, i, CategorySum(t.category, r[i].value + t.amount));
    SumAmountsSnoc(p, t);
  }

  /** Visiting a transaction whose category already has an entry keeps every property of a
      summary. */
  lemma {:induction false} BumpExisting(r: seq<CategorySum>, p: seq<Transaction>, t: Transaction)
    requires Summarises(r, p)
    requires IndexOfName(r, t.category) < |r|
    ensures Summarises(Bump(r, t.category, t.amount), p + [t])
  {
    ExistingDistinct(r, t.category, t.amount);
    ExistingValues(r, p, t);
    ExistingCategories(r, p, t);
    ExistingOrder(r, p, t);
    ExistingSum(r, p, t);
  }

  // Visiting a transaction whose category has no entry yet: the category has not been seen
  // before, and its entry goes last.

  lemma {:induction false} NewIsUnseen(r: seq<CategorySum>, p: seq<Transaction>, name: string)
    requires SameCategories(r, p)
    requires IndexOfName(r, name) == |r|
    ensures FirstIndex(p, name) == |p|
  {
    assert forall k :: 0 <= k < |p| ==> p[k].category != name;
  }

  lemma {:induction false} NewDistinct(r: seq<CategorySum>, name: string, amount: real)
    requires DistinctNames(r)
    requires IndexOfName(r, name) == |r|
    ensures DistinctNames(Bump(r, name, amount))
  {
    var r2 := Bump(r, name, amount);
    assert forall j :: 0 <= j < |r| ==> r2[j] == r[j] && r[j].name != name;
  }

  lemma {:induction false} NewValues(r: seq<CategorySum>, p: seq<Transaction>, t: Transaction)
    requires ValuesAreTotals(r, p)
    requires IndexOfName(r, t.category) == |r|
    requires FirstIndex(p, t.category) == |p|
    ensures ValuesAreTotals(Bump(r, t.category, t.amount), p + [t])
  {
    var r2 := Bump(r, t.category, t.amount);
    OtherTotalsStable(r, p, t);
    CategoryTotalAbsent(p, t.category);
    CategoryTotalSnoc(p, t, t.category);
    forall j | 0 <= j < |r2|
      ensures r2[j].value == CategoryTotal(p + [t], r2[j].name)
    {
      if j < |r| {
        assert r2[j] == r[j];
      }
    }
  }

  lemma {:induction false} NewCategories(r: seq<CategorySum>, p: seq<Transaction>, t: Transaction)
    requires SameCategories(r, p)
    requires IndexOfName(r, t.category) == |r|
    ensures SameCategories(Bump(r, t.category, t.amount), p + [t])
  {
    var q := p + [t];
    var x := CategorySum(t.category, t.amount);
    var r2 := Bump(r, t.category, t.amount);
    assert r2 == r + [x];
    FirstIndexStable(r, p, t);
    FirstIndexSnoc(p, t, t.category);
    forall j | 0 <= j < |r2|
      ensures FirstIndex(q, r2[j].name) < |q|
    {
      if j < |r| {
        assert r2[j] == r[j];
      }
    }
    forall k | 0 <= k < |q|
      ensures IndexOfName(r2, q[k].category) < |r2|
    {
      IndexOfNameSnoc(r, x, q[k].category);
      if k < |p| {
        assert q[k] == p[k];
      }
    }
  }

  lemma {:induction false} NewOrder(r: seq<CategorySum>, p: seq<Transaction>, t: Transaction)
    requires SameCategories(r, p) && FirstSeenOrder(r, p)
    requires FirstIndex(p, t.category) == |p|
    ensures FirstSeenOrder(Bump(r, t.category, t.amount), p + [t])
  {
    var q := p + [t];
    var r2 := Bump(r, t.category, t.amount);
    FirstIndexStable(r, p, t);
    FirstIndexSnoc(p, t, t.category);
    forall i, j | 0 <= i < j < |r2|
      ensures FirstIndex(q, r2[i].name) < FirstIndex(q, r2[j].name)
    {
      assert r2[i] == r[i];
      if j < |r| {
        assert r2[j] == r[j];
      }
    }
  }

  lemma {:induction false} NewSum(r: seq<CategorySum>, p: seq<Transaction>, t: Transaction)
    requires SumValues(r) == SumAmounts(p)
    requires IndexOfName(r, t.category) == |r|
    ensures SumValues(Bump(r, t.category, t.amount)) == SumAmounts(p + [t])
  {
    SumValuesAppend(r, CategorySum(t.category, t.amount));
    SumAmountsSnoc(p, t);
  }

  /** Visiting a transaction whose category has no entry yet keeps every property of a
      summary. */
  lemma {:induction false} BumpNew(r: seq<CategorySum>, p: seq<Transaction>, t: Transaction)
    requires Summarises(r, p)
    requires IndexOfName(r, t.category) == |r|
    ensures Summarises(Bump(r, t.category, t.amount), p + [t])
  {
    NewIsUnseen(r, p, t.category);
    NewDistinct(r, t.category, t.amount);
    NewValues(r, p, t);
    NewCategories(r, p, t);
    NewOrder(r, p, t);
    NewSum(r, p, t);
  }

  lemma {:induction false} AccumulateSummarises(ts: seq<Transaction>)
    ensures Summarises(Accumulate(ts), ts)
  {
    if |ts| > 0 {
      var p := ts[..|ts| - 1];
      var t := ts[|ts| - 1];
      assert ts == p + [t];
      AccumulateSummarises(p);
      var r := Accumulate(p);
      if IndexOfName(r, t.category) < |r| {
        BumpExisting(r, p, t);
      } else {
        BumpNew(r, p, t);
      }
    }
  }

  /** Transactions of the other type make no difference to the aggregation. */
  lemma AggregateIgnoresOtherKind(ts: seq<Transaction>, others: seq<Transaction>, kind: Kind)
    requires forall i :: 0 <= i < |others| ==> others[i].kind != kind
    ensures AggregateByCategory(ts + others, kind) == AggregateByCategory(ts, kind)
    ensures AggregateByCategory(others, kind) == []
  {
    FilterConcat(ts, others, KindIs(kind));
    FilterAllOrNone(others, KindIs(kind));
    assert Filter(ts, KindIs(kind)) + [] == Filter(ts, KindIs(kind));
  }

  // ---------------------------------------------------------------------------
  // Rates

  /** The year-over-year change in percent: 0 when the prior figure is 0 (a falsy number),
      otherwise `(current - prior) / prior * 100`. */
  function ChangeRate(current: real, prior: real): (r: real)
    ensures prior == 0.0 ==> r == 0.0
    ensures prior != 0.0 ==> r * prior == (current - prior) * 100.0
    ensures prior > 0.0 ==> (r > 0.0 <==> current > prior) && (r == 0.0 <==> current == prior)
  {
    if prior != 0.0 then (current - prior) / prior * 100.0 else 0.0
  }

  function Abs(x: real): real {
    if x < 0.0 then -x else x
  }

  /** The income-versus-expense figure: the size of the gap between income and expense in
      percent of the expense, or 0 when there is no positive expense. */
  function IncomeExpenseRatio(income: real, expense: real): (r: real)
    ensures r >= 0.0
    ensures expense <= 0.0 ==> r == 0.0
    ensures expense > 0.0 ==> r * expense == Abs(income - expense) * 100.0
    ensures expense > 0.0 ==> (r == 0.0 <==> income == expense)
  {
    if expense > 0.0 then Abs((income - expense) / expense * 100.0) else 0.0
  }

  /** The savings rate: the part of the income not spent, in percent of the income, or 0 when
      there is no positive income. */
  function SavingsRate(income: real, expense: real): (r: real)
    ensures income <= 0.0 ==> r == 0.0
    ensures income > 0.0 ==> r * income == (income - expense) * 100.0
    ensures income > 0.0 ==> (r < 0.0 <==> expense > income) && (r == 100.0 <==> expense == 0.0)
    ensures income > 0.0 && expense >= 0.0 ==> r <= 100.0
  {
    if income > 0.0 then (income - expense) / income * 100.0 else 0.0
  }

  // ---------------------------------------------------------------------------
  // The day-by-day series of a month

  /** One point of `dailyData`: a day with its expense, income and balance. */
  datatype DailyPoint = DailyPoint(date: Date, expense: real, income: real, balance: real)

  /** `isSameDay(new Date(t.date), day)`. */
  function SameDayAs(day: Date): Transaction -> bool {
    (t: Transaction) => t.date == day
  }

  /** The point of one day: that day's expense and income totals, 0 for a day without
      entries, and their difference. */
  function DayPoint(monthTs: seq<Transaction>, day: Date): (pt: DailyPoint)
    ensures pt.date == day && pt.balance == pt.income - pt.expense
    ensures pt.expense == TotalOf(Filter(monthTs, SameDayAs(day)), Expense)
    ensures pt.income == TotalOf(Filter(monthTs, SameDayAs(day)), Income)
    ensures Filter(monthTs, SameDayAs(day)) == [] ==> pt.expense == 0.0 && pt.income == 0.0
  {
    var dayTs := Filter(monthTs, SameDayAs(day));
    var expense := TotalOf(dayTs, Expense);
    var income := TotalOf(dayTs, Income);
    DailyPoint(day, expense, income, income - expense)
  }

  /** `dailyData`: one point for each day of month `m` of year `y`, in order. */
  function DailySeries(monthTs: seq<Transaction>, y: int, m: Month): (r: seq<DailyPoint>)
    ensures |r| == DaysInMonth(y, m)
    ensures forall i :: 0 <= i < |r| ==> r[i].date == Date(y, m, i + 1)
    ensures forall i :: 0 <= i < |r| ==> r[i].balance == r[i].income - r[i].expense
    ensures forall i :: 0 <= i < |r| ==> r[i] == DayPoint(monthTs, Date(y, m, i + 1))
  {
    var days := DaysOfMonth(y, m);
    seq(|days|, i requires 0 <= i < |days| => DayPoint(monthTs, days[i]))
  }

  lemma DailySeriesAt(monthTs: seq<Transaction>, y: int, m: Month, i: nat)
    requires i < DaysInMonth(y, m)
    ensures DailySeries(monthTs, y, m)[i] == DayPoint(monthTs, Date(y, m, i + 1))
  {
  }

  function Share(pt: DailyPoint, k: Kind): real {
    if k == Income then pt.income else pt.expense
  }

  /** The sum of the series' expenses, or incomes. */
  function SeriesTotal(r: seq<DailyPoint>, k: Kind): real {
    if |r| == 0 then 0.0 else SeriesTotal(r[..|r| - 1], k) + Share(r[|r| - 1], k)
  }

  lemma DayPointShare(monthTs: seq<Transaction>, day: Date, k: Kind)
    ensures Share(DayPoint(monthTs, day), k) == TotalOf(Filter(monthTs, SameDayAs(day)), k)
  {
  }

  function DayKey(t: Transaction): int {
    t.date.day - 1
  }

  /** Within one month, a day's entries are the bucket of that day. */
  lemma {:induction false} DayIsBucket(monthTs: seq<Transaction>, y: int, m: Month, i: int)
    requires forall k :: 0 <= k < |monthTs| ==> monthTs[k].date.year == y && monthTs[k].date.month == m
    ensures Filter(monthTs, SameDayAs(Date(y, m, i + 1))) == Filter(monthTs, KeyIs(DayKey, i))
  {
    forall k | 0 <= k < |monthTs|
      ensures SameDayAs(Date(y, m, i + 1))(monthTs[k]) == KeyIs(DayKey, i)(monthTs[k])
    {
      assert DayKey(monthTs[k]) == monthTs[k].date.day - 1;
    }
    FilterAgree(monthTs, SameDayAs(Date(y, m, i + 1)), KeyIs(DayKey, i));
  }

  /** Day `i + 1` of the series carries the total of bucket `i` of the month's list. */
  lemma DayShareIsBucket(monthTs: seq<Transaction>, y: int, m: Month, k: Kind, i: nat)
    requires i < DaysInMonth(y, m)
    requires forall j :: 0 <= j < |monthTs| ==> monthTs[j].date.year == y && monthTs[j].date.month == m
    ensures Share(DailySeries(monthTs, y, m)[i], k) == TotalOf(Filter(monthTs, KeyIs(DayKey, i)), k)
  {
    DailySeriesAt(monthTs, y, m, i);
    DayIsBucket(monthTs, y, m, i);
    DayPointShare(monthTs, Date(y, m, i + 1), k);
  }

  /** The prefix of length n adds the n-th point's share to the prefix before it. */
  lemma SeriesTotalStep(series: seq<DailyPoint>, k: Kind, n: nat)
    requires 0 < n <= |series|
    ensures SeriesTotal(series[..n], k) == SeriesTotal(series[..n - 1], k) + Share(series[n - 1], k)
  {
    var pre := series[..n];
    assert pre[..n - 1] == series[..n - 1];
    assert pre[n - 1] == series[n - 1];
  }

  /** A series whose point `i` carries the total of bucket `i` adds up, over its first `n`
      points, to the totals of buckets 0 .. n-1. */
  lemma {:induction false} SeriesPrefixAsBuckets(series: seq<DailyPoint>, monthTs: seq<Transaction>, k: Kind, n: nat)
    requires n <= |series|
    requires forall i :: 0 <= i < |series| ==> Share(series[i], k) == TotalOf(Filter(monthTs, KeyIs(DayKey, i)), k)
    ensures SeriesTotal(series[..n], k) == BucketTotals(monthTs, DayKey, k, n)
    decreases n
  {
    if n > 0 {
      var day := Share(series[n - 1], k);
      assert SeriesTotal(series[..n - 1], k) == BucketTotals(monthTs, DayKey, k, n - 1) by {
        SeriesPrefixAsBuckets(series, monthTs, k, n - 1);
      }
      assert SeriesTotal(series[..n], k) == SeriesTotal(series[..n - 1], k) + day by {
        SeriesTotalStep(series, k, n);
      }
      assert BucketTotals(monthTs, DayKey, k, n) == BucketTotals(monthTs, DayKey, k, n - 1) + day;
    }
  }

  /** The days of the series split the month: when every entry of the month's list is a date
      of that month, the daily expenses add up to the month's expense, and the daily incomes
      to its income. */
  lemma DailySeriesAddsUp(monthTs: seq<Transaction>, y: int, m: Month, k: Kind)
    requires forall j :: 0 <= j < |monthTs| ==>
      monthTs[j].date.year == y && monthTs[j].date.month == m && ValidDate(monthTs[j].date)
    ensures SeriesTotal(DailySeries(monthTs, y, m), k) == TotalOf(monthTs, k)
  {
    var series := DailySeries(monthTs, y, m);
    forall i | 0 <= i < |series|
      ensures Share(series[i], k) == TotalOf(Filter(monthTs, KeyIs(DayKey, i)), k)
    {
      DayShareIsBucket(monthTs, y, m, k, i);
    }
    SeriesPrefixAsBuckets(series, monthTs, k, |series|);
    assert series[..|series|] == series;
    BucketsPartition(monthTs, DayKey, k, DaysInMonth(y, m));
  }

  // ---------------------------------------------------------------------------
  // The page

  /** `viewMode`: the whole month, or the selected day. */
  datatype ViewMode = MonthView | DayView

  /** Everything the page derives from the store for the selected date. */
  datatype Report = Report(
    currentMonth: seq<Transaction>,
    lastYearMonth: seq<Transaction>,
    selectedDay: seq<Transaction>,
    dailyIncome: real, dailyExpense: real, dailyBalance: real,
    currentExpense: real, currentIncome: real,
    lastYearExpense: real, lastYearIncome: real,
    expenseChangeRate: real, incomeChangeRate: real,
    daily: seq<DailyPoint>,
    expenseByCategory: seq<CategorySum>,
    incomeByCategory: seq<CategorySum>,
    listed: seq<Transaction>,
    incomeExpenseRatio: real,
    savingsRate: real)

  /** The derived figures of the statistics page for the selected `date` and view mode. The
      comparison month is found by going twelve months back from the first of the selected
      month. */
  function BuildReport(s: State, date: Date, mode: ViewMode): (r: Report)
    ensures r.currentMonth == MonthlyTransactions(s.transactions, date.year, date.month)
    ensures r.lastYearMonth == MonthlyTransactions(s.transactions, date.year - 1, date.month)
    ensures forall i :: 0 <= i < |r.selectedDay| ==> r.selectedDay[i].date == date
    ensures r.currentExpense == TotalOf(r.currentMonth, Expense) && r.currentIncome == TotalOf(r.currentMonth, Income)
    ensures r.lastYearExpense == TotalOf(r.lastYearMonth, Expense) && r.lastYearIncome == TotalOf(r.lastYearMonth, Income)
    ensures r.dailyExpense == TotalOf(r.selectedDay, Expense) && r.dailyIncome == TotalOf(r.selectedDay, Income)
    ensures r.dailyBalance == r.dailyIncome - r.dailyExpense
    ensures r.expenseChangeRate == ChangeRate(r.currentExpense, r.lastYearExpense)
    ensures r.incomeChangeRate == ChangeRate(r.currentIncome, r.lastYearIncome)
    ensures mode == MonthView ==>
      r.incomeExpenseRatio == IncomeExpenseRatio(r.currentIncome, r.currentExpense) &&
      r.savingsRate == SavingsRate(r.currentIncome, r.currentExpense)
    ensures mode == DayView ==>
      r.incomeExpenseRatio == IncomeExpenseRatio(r.dailyIncome, r.dailyExpense) &&
      r.savingsRate == SavingsRate(r.dailyIncome, r.dailyExpense)
    ensures |r.daily| == DaysInMonth(date.year, date.month)
    ensures r.daily == DailySeries(r.currentMonth, date.year, date.month)
    ensures SumValues(r.expenseByCategory) == (if mode == MonthView then r.currentExpense else r.dailyExpense)
    ensures SumValues(r.incomeByCategory) == (if mode == MonthView then r.currentIncome else r.dailyIncome)
    ensures r.listed == (if mode == DayView then r.selectedDay else r.currentMonth)
    ensures r.expenseByCategory == AggregateByCategory(r.listed, Expense)
    ensures r.incomeByCategory == AggregateByCategory(r.listed, Income)
  {
    var start := StartOfMonth(date);
    var lastYearStart := SubMonths(start, 12);
    TwelveMonthsBackIsSameMonthLastYear(start);
    var current := MonthlyTransactions(s.transactions, date.year, date.month);
    var lastYear := MonthlyTransactions(s.transactions, lastYearStart.year, lastYearStart.month);
    var selected := Filter(current, SameDayAs(date));
    var dailyIncome := GetTotalIncome(s, Some(selected));
    var dailyExpense := GetTotalExpense(s, Some(selected));
    var currentExpense := GetTotalExpense(s, Some(current));
    var currentIncome := GetTotalIncome(s, Some(current));
    var lastYearExpense := GetTotalExpense(s, Some(lastYear));
    var lastYearIncome := GetTotalIncome(s, Some(lastYear));
    var shown := if mode == MonthView then current else selected;
    Report(
      current, lastYear, selected,
      dailyIncome, dailyExpense, GetBalance(s, Some(selected)),
      currentExpense, currentIncome, lastYearExpense, lastYearIncome,
      ChangeRate(currentExpense, lastYearExpense), ChangeRate(currentIncome, lastYearIncome),
      DailySeries(current, date.year, date.month),
      AggregateByCategory(shown, Expense),
      AggregateByCategory(shown, Income),
      if mode == DayView then selected else current,
      if mode == MonthView then IncomeExpenseRatio(currentIncome, currentExpense)
      else IncomeExpenseRatio(dailyIncome, dailyExpense),
      if mode == MonthView then SavingsRate(currentIncome, currentExpense)
      else SavingsRate(dailyIncome, dailyExpense))
  }

  /** The selected day's list, taken from the month's list, is exactly that day's entries of
      the whole store, in store order. */
  lemma SelectedDayIsThatDay(s: State, date: Date, mode: ViewMode)
    ensures BuildReport(s, date, mode).selectedDay == Filter(s.transactions, SameDayAs(date))
  {
    var ts := s.transactions;
    FilterFilter(ts, InMonth(date.year, date.month), SameDayAs(date));
    forall i | 0 <= i < |ts|
      ensures Both(InMonth(date.year, date.month), SameDayAs(date))(ts[i]) == SameDayAs(date)(ts[i])
    {
    }
    FilterAgree(ts, Both(InMonth(date.year, date.month), SameDayAs(date)), SameDayAs(date));
  }

  /** Every entry of the selected day is also an entry of the month shown. */
  lemma SelectedDayWithinMonth(s: State, date: Date, mode: ViewMode)
    ensures var r := BuildReport(s, date, mode);
      forall i :: 0 <= i < |r.selectedDay| ==> r.selectedDay[i] in r.currentMonth
  {
    var r := BuildReport(s, date, mode);
    assert r.selectedDay == Filter(r.currentMonth, SameDayAs(date));
    FilterMembers(r.currentMonth, SameDayAs(date));
  }

  /** When every stored date is a real calendar date, the day-by-day series adds up to the
      month's totals shown beside it. */
  lemma ReportSeriesAddsUp(s: State, date: Date, mode: ViewMode)
    requires forall i :: 0 <= i < |s.transactions| ==> ValidDate(s.transactions[i].date)
    ensures SeriesTotal(BuildReport(s, date, mode).daily, Expense) == BuildReport(s, date, mode).currentExpense
    ensures SeriesTotal(BuildReport(s, date, mode).daily, Income) == BuildReport(s, date, mode).currentIncome
  {
    var current := MonthlyTransactions(s.transactions, date.year, date.month);
    PeriodViewsKeepExactly(s.transactions, date.year, date.month);
    assert forall j :: 0 <= j < |current| ==> ValidDate(current[j].date);
    DailySeriesAddsUp(current, date.year, date.month, Expense);
    DailySeriesAddsUp(current, date.year, date.month, Income);
  }
}
