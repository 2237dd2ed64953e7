/**
 * The dashboard's data shaping: income and expense totals recomputed from the
 * fetched records, reconciled against the server summary, and a per-day
 * breakdown turned into the trend series.
 */
module Dashboard {
  import opened Wrappers
  import opened TransactionModel
  import opened Sequences

  /** The fold accumulator `{ income, expenses }`. */
  datatype Totals = Totals(income: int, expenses: int)

  /** The summary reply as received; a field that is `undefined` or `null` is `None`. */
  datatype ServerSummary = ServerSummary(income: Option<int>, expenses: Option<int>)

  /** The summary the dashboard shows. */
  datatype Summary = Summary(income: int, expenses: int, balance: int)

  /** One entry of the trend series. */
  datatype Trend = Trend(date: Day, income: int, expenses: int, balance: int)

  datatype DashboardData = DashboardData(summary: Summary, trends: seq<Trend>, transactions: seq<Transaction>)

  /** The summary reply carried no data: 'No summary data received'. */
  datatype DashboardError = NoSummaryData

  // ---------------------------------------------------------------------------
  // Totals
  // ---------------------------------------------------------------------------

  /** The dashboard's test for income; every other `type` counts as an expense. */
  predicate IsIncome(t: Transaction) {
    t.kind == Income
  }

  /** Everything that is not income: the `else` branch of both folds. */
  predicate IsExpense(t: Transaction) {
    !IsIncome(t)
  }

  function SumAmounts(s: seq<Transaction>): int {
    if s == [] then 0 else SumAmounts(s[..|s| - 1]) + s[|s| - 1].amount
  }

  function IncomeOf(s: seq<Transaction>): int {
    if s == [] then 0
    else IncomeOf(s[..|s| - 1]) + (if IsIncome(s[|s| - 1]) then s[|s| - 1].amount else 0)
  }

  function ExpensesOf(s: seq<Transaction>): int {
    if s == [] then 0
    else ExpensesOf(s[..|s| - 1]) + (if IsIncome(s[|s| - 1]) then 0 else s[|s| - 1].amount)
  }

  /** Every record lands in exactly one of the two totals. */
  lemma {:induction false} PartitionComplete(s: seq<Transaction>)
    ensures IncomeOf(s) + ExpensesOf(s) == SumAmounts(s)
  {
    if s != [] {
      PartitionComplete(s[..|s| - 1]);
    }
  }

  /** The income total is the sum over the income records. */
  lemma {:induction false} IncomeIsFilteredSum(s: seq<Transaction>)
    ensures IncomeOf(s) == SumAmounts(Filter(s, IsIncome))
  {
    if s != [] {
      var init, last := s[..|s| - 1], s[|s| - 1];
      IncomeIsFilteredSum(init);
      var kept := Filter(init, IsIncome);
      if IsIncome(last) {
        assert (kept + [last])[..|kept|] == kept;
      }
    }
  }

  /** The expense total is the sum over all the other records, whatever their `type`. */
  lemma {:induction false} ExpensesAreFilteredSum(s: seq<Transaction>)
    ensures ExpensesOf(s) == SumAmounts(Filter(s, IsExpense))
  {
    if s != [] {
      var init, last := s[..|s| - 1], s[|s| - 1];
      ExpensesAreFilteredSum(init);
      var kept := Filter(init, IsExpense);
      if IsExpense(last) {
        assert (kept + [last])[..|kept|] == kept;
      }
    }
  }

  /** Appending a record adds its amount to exactly one of the two totals. */
  lemma SumsAppend(s: seq<Transaction>, t: Transaction)
    ensures IncomeOf(s + [t]) == IncomeOf(s) + (if IsIncome(t) then t.amount else 0)
    ensures ExpensesOf(s + [t]) == ExpensesOf(s) + (if IsIncome(t) then 0 else t.amount)
  {
    assert (s + [t])[..|s|] == s;
  }

  /** A record of any `type` other than 'income' raises the expense total by its amount. */
  lemma {:induction false} OtherKindsCountAsExpenses(s: seq<Transaction>, t: Transaction)
    requires t.kind != Income
    ensures ExpensesOf(s + [t]) == ExpensesOf(s) + t.amount
    ensures IncomeOf(s + [t]) == IncomeOf(s)
  {
    assert (s + [t])[..|s|] == s;
  }

  /** `calculatedTotals`: the fold over the fetched records. */
  method CalculateTotals(transactions: seq<Transaction>) returns (totals: Totals)
    ensures totals.income == IncomeOf(transactions)
    ensures totals.expenses == ExpensesOf(transactions)
    ensures totals.income + totals.expenses == SumAmounts(transactions)
  {
    totals := Totals(0, 0);
    for i := 0 to |transactions|
      invariant totals.income == IncomeOf(transactions[..i])
      invariant totals.expenses == ExpensesOf(transactions[..i])
    {
      var t := transactions[i];
      assert transactions[..i + 1][..i] == transactions[..i];
      if t.kind == Income {
        totals := totals.(income := totals.income + t.amount);
      } else {
        totals := totals.(expenses := totals.expenses + t.amount);
      }
    }
    assert transactions[..|transactions|] == transactions;
    PartitionComplete(transactions);
  }

  // ---------------------------------------------------------------------------
  // Reconciliation
  // ---------------------------------------------------------------------------

  /** JavaScript's `value || fallback` for a number: `undefined`, `null` and 0 are falsy. */
  function OrElse(value: Option<int>, fallback: int): (r: int)
    ensures value.Some? && value.value != 0 ==> r == value.value
    ensures value.None? || value.value == 0 ==> r == fallback
  {
    match value
    case Some(v) => if v != 0 then v else fallback
    case None => fallback
  }

  /**
   * `finalSummary`: each total is the server's when it is non-zero and the
   * recomputed one otherwise, chosen independently; the balance is always
   * derived from the two chosen totals, never taken from the server.
   */
  function Reconcile(server: ServerSummary, calculated: Totals): (r: Summary)
    ensures r.balance == r.income - r.expenses
    ensures r.income == (if server.income.Some? && server.income.value != 0
                         then server.income.value else calculated.income)
    ensures r.expenses == (if server.expenses.Some? && server.expenses.value != 0
                           then server.expenses.value else calculated.expenses)
  {
    var income := OrElse(server.income, calculated.income);
    var expenses := OrElse(server.expenses, calculated.expenses);
    Summary(income, expenses, income - expenses)
  }

  /** When the server's totals agree with the recomputed ones, reconciling changes nothing. */
  lemma ReconcileAgreeing(calculated: Totals)
    ensures Reconcile(ServerSummary(Some(calculated.income), Some(calculated.expenses)), calculated)
         == Summary(calculated.income, calculated.expenses, calculated.income - calculated.expenses)
  {
  }

  /** A summary reply with no fields yields exactly the recomputed totals. */
  lemma ReconcileMissingFields(calculated: Totals)
    ensures Reconcile(ServerSummary(None, None), calculated)
         == Summary(calculated.income, calculated.expenses, calculated.income - calculated.expenses)
  {
  }

  /**
   * A summary reply of zeros, which is what the summary handler sends when its
   * owner match selects nothing, yields exactly the recomputed totals.
   */
  lemma ReconcileZeroReply(calculated: Totals)
    ensures Reconcile(ServerSummary(Some(0), Some(0)), calculated)
         == Summary(calculated.income, calculated.expenses, calculated.income - calculated.expenses)
  {
  }

  /** Each total is chosen on its own: a zero server income falls back, a non-zero expense total is kept. */
  lemma ReconcileExample()
    ensures Reconcile(ServerSummary(Some(0), Some(50)), Totals(120, 45)) == Summary(120, 50, 70)
  {
  }

  // ---------------------------------------------------------------------------
  // Per-day grouping
  // ---------------------------------------------------------------------------

  /** The records dated on day `d`, in their original order. */
  function OnDay(s: seq<Transaction>, d: Day): seq<Transaction> {
    if s == [] then []
    else OnDay(s[..|s| - 1], d) + (if DayOf(s[|s| - 1].date) == d then [s[|s| - 1]] else [])
  }

  /** A day's records are the list filtered by that day. */
  lemma {:induction false} OnDayIsFilter(s: seq<Transaction>, d: Day)
    ensures OnDay(s, d) == Filter(s, (t: Transaction) => DayOf(t.date) == d)
  {
    if s != [] {
      OnDayIsFilter(s[..|s| - 1], d);
    }
  }

  /** A day's records are exactly the records dated on that day. */
  lemma {:induction false} OnDayMembers(s: seq<Transaction>, d: Day)
    ensures forall t :: t in OnDay(s, d) <==> t in s && DayOf(t.date) == d
  {
    if s != [] {
      OnDayMembers(s[..|s| - 1], d);
      assert s == s[..|s| - 1] + [s[|s| - 1]];
    }
  }

  /** Appending a record extends the list of its own day and of no other. */
  lemma OnDayAppend(s: seq<Transaction>, t: Transaction, e: Day)
    ensures OnDay(s + [t], e) == OnDay(s, e) + (if DayOf(t.date) == e then [t] else [])
  {
    assert (s + [t])[..|s|] == s;
  }

  /** The index of the first record dated on day `d`, or `|s|` when there is none. */
  function FirstIndex(s: seq<Transaction>, d: Day): (k: nat)
    ensures k <= |s|
    ensures k < |s| ==> DayOf(s[k].date) == d
    ensures forall i :: 0 <= i < k ==> DayOf(s[i].date) != d
  {
    if s == [] then 0
    else if DayOf(s[0].date) == d then 0
    else 1 + FirstIndex(s[1..], d)
  }

  /**
   * The distinct days of the records, in the order in which each first appears:
   * the key order `Object.entries` gives for the `dailyTransactions` dictionary.
   */
  function DaysInOrder(s: seq<Transaction>): (days: seq<Day>)
    ensures forall d :: d in days <==> OnDay(s, d) != []
    ensures forall i, j :: 0 <= i < j < |days| ==> days[i] != days[j]
  {
    if s == [] then []
    else
      var init, d := s[..|s| - 1], DayOf(s[|s| - 1].date);
      var earlier := DaysInOrder(init);
      if d in earlier then earlier else earlier + [d]
  }

  /** Days appear in the order of their first record. */
  lemma {:induction false} DaysInFirstOccurrenceOrder(s: seq<Transaction>)
    ensures forall i, j :: 0 <= i < j < |DaysInOrder(s)| ==>
      FirstIndex(s, DaysInOrder(s)[i]) < FirstIndex(s, DaysInOrder(s)[j])
  {
    if s != [] {
      var init, last := s[..|s| - 1], s[|s| - 1];
      DaysInFirstOccurrenceOrder(init);
      var earlier := DaysInOrder(init);
      forall e | e in earlier ensures FirstIndex(s, e) == FirstIndex(init, e) < |init| {
        FirstIndexOfPrefix(s, e);
      }
      if DayOf(last.date) !in earlier {
        assert FirstIndex(s, DayOf(last.date)) == |init| by {
          FirstIndexOfPrefix(s, DayOf(last.date));
        }
      }
    }
  }

  /** The first record of a day in a concatenation is in the front part when the front has one. */
  lemma {:induction false} FirstIndexConcat(a: seq<Transaction>, b: seq<Transaction>, d: Day)
    ensures FirstIndex(a + b, d) == if FirstIndex(a, d) < |a| then FirstIndex(a, d) else |a| + FirstIndex(b, d)
  {
    if a == [] {
      assert a + b == b;
    } else {
      assert (a + b)[1..] == a[1..] + b;
      FirstIndexConcat(a[1..], b, d);
    }
  }

  /** Appending a record does not move the first occurrence of a day already present. */
  lemma FirstIndexOfPrefix(s: seq<Transaction>, d: Day)
    requires s != []
    ensures var init := s[..|s| - 1];
      && (OnDay(init, d) != [] ==> FirstIndex(s, d) == FirstIndex(init, d) < |init|)
      && (OnDay(init, d) == [] && DayOf(s[|s| - 1].date) == d ==> FirstIndex(s, d) == |init|)
  {
    var init, last := s[..|s| - 1], s[|s| - 1];
    assert s == init + [last];
    FirstIndexConcat(init, [last], d);
    OnDayMembers(init, d);
    var k := FirstIndex(init, d);
    if OnDay(init, d) != [] {
      assert OnDay(init, d)[0] in OnDay(init, d);
      var i :| 0 <= i < |init| && init[i] == OnDay(init, d)[0];
      assert k <= i;
    } else {
      forall i | 0 <= i < |init| ensures DayOf(init[i].date) != d {
        assert init[i] in init;
      }
    }
  }

  /** One day's totals in the `dailyTransactions` dictionary. */
  datatype DayTotals = DayTotals(income: int, expenses: int)

  /** The totals of the records dated on day `d`. */
  function DayTotalsOf(s: seq<Transaction>, d: Day): DayTotals {
    DayTotals(IncomeOf(OnDay(s, d)), ExpensesOf(OnDay(s, d)))
  }

  /** Adding a record's amount to the side of a day's entry that its `type` selects. */
  function Add(entry: DayTotals, t: Transaction): DayTotals {
    if IsIncome(t) then entry.(income := entry.income + t.amount)
    else entry.(expenses := entry.expenses + t.amount)
  }

  lemma DaysInOrderAppend(s: seq<Transaction>, t: Transaction)
    ensures DaysInOrder(s + [t])
         == if DayOf(t.date) in DaysInOrder(s) then DaysInOrder(s) else DaysInOrder(s) + [DayOf(t.date)]
  {
    assert (s + [t])[..|s|] == s;
  }

  /** Appending a record changes the totals of its own day only, by its amount. */
  lemma DayTotalsAppend(s: seq<Transaction>, t: Transaction, e: Day)
    ensures DayTotalsOf(s + [t], e) == if e == DayOf(t.date) then Add(DayTotalsOf(s, e), t) else DayTotalsOf(s, e)
  {
    OnDayAppend(s, t, e);
    var on := OnDay(s, e);
    if e == DayOf(t.date) {
      assert OnDay(s + [t], e) == on + [t];
      SumsAppend(on, t);
    } else {
      assert OnDay(s + [t], e) == on + [] == on;
    }
  }

  /** A day without records has zero totals: the entry the fold starts a new day with. */
  lemma DayTotalsOfAbsentDay(s: seq<Transaction>, e: Day)
    requires e !in DaysInOrder(s)
    ensures DayTotalsOf(s, e) == DayTotals(0, 0)
  {
  }

  /** `buckets` is the grouping of `s`: one entry per day of `days`, holding that day's totals. */
  ghost predicate Grouped(s: seq<Transaction>, days: seq<Day>, buckets: map<Day, DayTotals>) {
    && days == DaysInOrder(s)
    && (forall e :: e in buckets <==> e in days)
    && (forall e :: e in buckets ==> buckets[e] == DayTotalsOf(s, e))
  }

  lemma PrefixStep<T>(s: seq<T>, i: nat)
    requires i < |s|
    ensures s[..i + 1] == s[..i] + [s[i]]
  {
  }

  /** Filing an entry under `d` adds `d` to the keys exactly when it was not yet a day. */
  lemma GroupStepKeys(days: seq<Day>, buckets: map<Day, DayTotals>, d: Day, entry: DayTotals, days': seq<Day>)
    requires forall e :: e in buckets <==> e in days
    requires days' == if d in buckets then days else days + [d]
    ensures forall e :: e in buckets[d := entry] <==> e in days'
  {
    forall e ensures e in buckets[d := entry] <==> e in days' {
      assert e in days + [d] <==> e in days || e == d;
    }
  }

  /** After one step of the fold, each day's entry holds that day's totals. */
  lemma GroupStepEntry(s: seq<Transaction>, t: Transaction, days: seq<Day>, buckets: map<Day, DayTotals>, e: Day)
    requires Grouped(s, days, buckets)
    requires e in buckets || e == DayOf(t.date)
    ensures var d := DayOf(t.date);
      buckets[d := Add(if d in buckets then buckets[d] else DayTotals(0, 0), t)][e] == DayTotalsOf(s + [t], e)
  {
    var d := DayOf(t.date);
    DayTotalsAppend(s, t, e);
    if e == d && d !in buckets {
      DayTotalsOfAbsentDay(s, d);
    }
  }

  /** One step of the grouping fold: a new day is appended, and the record's day gets its amount. */
  lemma GroupStep(s: seq<Transaction>, t: Transaction, days: seq<Day>, buckets: map<Day, DayTotals>)
    requires Grouped(s, days, buckets)
    ensures var d := DayOf(t.date);
      Grouped(s + [t],
              if d in buckets then days else days + [d],
              buckets[d := Add(if d in buckets then buckets[d] else DayTotals(0, 0), t)])
  {
    var d := DayOf(t.date);
    var entry := Add(if d in buckets then buckets[d] else DayTotals(0, 0), t);
    var days', buckets' := if d in buckets then days else days + [d], buckets[d := entry];
    DaysInOrderAppend(s, t);
    GroupStepKeys(days, buckets, d, entry, days');
    forall e | e in buckets' ensures buckets'[e] == DayTotalsOf(s + [t], e) {
      GroupStepEntry(s, t, days, buckets, e);
    }
  }

  /**
   * `dailyTransactions`: the fold that groups the records by day. The keys are
   * the record days in first-occurrence order, each with its day's totals.
   */
  method GroupByDay(transactions: seq<Transaction>) returns (days: seq<Day>, buckets: map<Day, DayTotals>)
    ensures days == DaysInOrder(transactions)
    ensures forall e :: e in buckets <==> e in days
    ensures forall e :: e in buckets ==> buckets[e] == DayTotalsOf(transactions, e)
  {
    days, buckets := [], map[];
    for i := 0 to |transactions|
      invariant Grouped(transactions[..i], days, buckets)
    {
      var t := transactions[i];
      var d := DayOf(t.date);
      ghost var prefix, before, daysBefore := transactions[..i], buckets, days;
      var entry := DayTotals(0, 0);
      if d in buckets {
        entry := buckets[d];
      } else {
        days := days + [d];
      }
      if t.kind == Income {
        entry := entry.(income := entry.income + t.amount);
      } else {
        entry := entry.(expenses := entry.expenses + t.amount);
      }
      buckets := buckets[d := entry];
      assert entry == Add(if d in before then before[d] else DayTotals(0, 0), t);
      assert days == if d in before then daysBefore else daysBefore + [d];
      PrefixStep(transactions, i);
      GroupStep(prefix, t, daysBefore, before);
    }
    assert transactions[..|transactions|] == transactions;
  }

  // ---------------------------------------------------------------------------
  // Trends
  // ---------------------------------------------------------------------------

  /** `monthlyTrends`: one entry per dictionary key, in key order, with its balance. */
  function MonthlyTrends(days: seq<Day>, buckets: map<Day, DayTotals>): (trends: seq<Trend>)
    requires forall d :: d in days ==> d in buckets
    ensures |trends| == |days|
    ensures forall i :: 0 <= i < |trends| ==>
      && trends[i].date == days[i]
      && trends[i].income == buckets[days[i]].income
      && trends[i].expenses == buckets[days[i]].expenses
      && trends[i].balance == trends[i].income - trends[i].expenses
  {
    if days == [] then []
    else
      var d := days[0];
      [Trend(d, buckets[d].income, buckets[d].expenses, buckets[d].income - buckets[d].expenses)]
        + MonthlyTrends(days[1..], buckets)
  }

  /** The trend series the dashboard derives from a list of records. */
  function TrendsOf(s: seq<Transaction>): (trends: seq<Trend>)
    ensures |trends| == |DaysInOrder(s)|
  {
    var days := DaysInOrder(s);
    seq(|days|, i requires 0 <= i < |days| =>
      var totals := DayTotalsOf(s, days[i]);
      Trend(days[i], totals.income, totals.expenses, totals.income - totals.expenses))
  }

  /** Mapping the grouping of a list gives that list's trend series. */
  lemma MonthlyTrendsOfGrouping(s: seq<Transaction>, days: seq<Day>, buckets: map<Day, DayTotals>)
    requires Grouped(s, days, buckets)
    ensures MonthlyTrends(days, buckets) == TrendsOf(s)
  {
    var trends, expected := MonthlyTrends(days, buckets), TrendsOf(s);
    forall i | 0 <= i < |trends| ensures trends[i] == expected[i] {
      assert days[i] in buckets;
    }
  }

  /** Each trend entry is its day's totals, with a balance of income minus expenses. */
  lemma TrendEntries(s: seq<Transaction>, i: int)
    requires 0 <= i < |TrendsOf(s)|
    ensures TrendsOf(s)[i].date == DaysInOrder(s)[i]
    ensures TrendsOf(s)[i].income == IncomeOf(OnDay(s, TrendsOf(s)[i].date))
    ensures TrendsOf(s)[i].expenses == ExpensesOf(OnDay(s, TrendsOf(s)[i].date))
    ensures TrendsOf(s)[i].balance == TrendsOf(s)[i].income - TrendsOf(s)[i].expenses
  {
  }

  /** Exactly one trend entry per day that has records, and none for any other day. */
  lemma OneTrendPerActiveDay(s: seq<Transaction>, d: Day)
    ensures OnDay(s, d) != [] <==> exists i :: 0 <= i < |TrendsOf(s)| && TrendsOf(s)[i].date == d
    ensures forall i, j :: 0 <= i < j < |TrendsOf(s)| ==> TrendsOf(s)[i].date != TrendsOf(s)[j].date
  {
    var days := DaysInOrder(s);
    if OnDay(s, d) != [] {
      var i :| 0 <= i < |days| && days[i] == d;
      assert TrendsOf(s)[i].date == d;
    }
  }

  function TrendIncome(trends: seq<Trend>): int {
    if trends == [] then 0 else trends[0].income + TrendIncome(trends[1..])
  }

  function TrendExpenses(trends: seq<Trend>): int {
    if trends == [] then 0 else trends[0].expenses + TrendExpenses(trends[1..])
  }

  /** The sum over a list of days of the income and expenses recorded on each. */
  function DailyIncome(s: seq<Transaction>, days: seq<Day>): int {
    if days == [] then 0 else IncomeOf(OnDay(s, days[0])) + DailyIncome(s, days[1..])
  }

  function DailyExpenses(s: seq<Transaction>, days: seq<Day>): int {
    if days == [] then 0 else ExpensesOf(OnDay(s, days[0])) + DailyExpenses(s, days[1..])
  }

  /** Appending a record adds its amount to the one listed day it falls on. */
  lemma {:induction false} DailySumsAppend(s: seq<Transaction>, t: Transaction, days: seq<Day>)
    requires forall i, j :: 0 <= i < j < |days| ==> days[i] != days[j]
    ensures DailyIncome(s + [t], days)
         == DailyIncome(s, days) + (if DayOf(t.date) in days && IsIncome(t) then t.amount else 0)
    ensures DailyExpenses(s + [t], days)
         == DailyExpenses(s, days) + (if DayOf(t.date) in days && !IsIncome(t) then t.amount else 0)
  {
    if days != [] {
      var e := days[0];
      DailySumsAppend(s, t, days[1..]);
      var s' := s + [t];
      assert s'[..|s|] == s;
      var on := OnDay(s, e);
      if DayOf(t.date) == e {
        assert OnDay(s', e) == on + [t];
        assert (on + [t])[..|on|] == on;
        assert DayOf(t.date) !in days[1..];
      } else {
        assert OnDay(s', e) == on;
      }
    }
  }

  /** A list of days none of which has a record sums to 0. */
  lemma {:induction false} DailySumsOfEmpty(days: seq<Day>)
    ensures DailyIncome([], days) == 0 && DailyExpenses([], days) == 0
  {
    if days != [] {
      DailySumsOfEmpty(days[1..]);
    }
  }

  /** Summing the per-day totals over all the days that have records gives the overall totals. */
  lemma {:induction false} DailySumsMatchTotals(s: seq<Transaction>, days: seq<Day>)
    requires forall i, j :: 0 <= i < j < |days| ==> days[i] != days[j]
    requires forall t :: t in s ==> DayOf(t.date) in days
    ensures DailyIncome(s, days) == IncomeOf(s)
    ensures DailyExpenses(s, days) == ExpensesOf(s)
  {
    if s == [] {
      DailySumsOfEmpty(days);
    } else {
      var init, last := s[..|s| - 1], s[|s| - 1];
      assert s == init + [last];
      DailySumsMatchTotals(init, days);
      DailySumsAppend(init, last, days);
    }
  }

  lemma {:induction false} TrendSumsAreDailySums(s: seq<Transaction>, days: seq<Day>, trends: seq<Trend>)
    requires |trends| == |days|
    requires forall i :: 0 <= i < |days| ==>
      trends[i].income == IncomeOf(OnDay(s, days[i])) && trends[i].expenses == ExpensesOf(OnDay(s, days[i]))
    ensures TrendIncome(trends) == DailyIncome(s, days)
    ensures TrendExpenses(trends) == DailyExpenses(s, days)
  {
    if days != [] {
      TrendSumsAreDailySums(s, days[1..], trends[1..]);
    }
  }

  /** The trend series' incomes add up to the income total, and its expenses to the expense total. */
  lemma TrendsSumToTotals(s: seq<Transaction>)
    ensures TrendIncome(TrendsOf(s)) == IncomeOf(s)
    ensures TrendExpenses(TrendsOf(s)) == ExpensesOf(s)
  {
    var days := DaysInOrder(s);
    forall t | t in s ensures DayOf(t.date) in days {
      OnDayMembers(s, DayOf(t.date));
    }
    TrendSumsAreDailySums(s, days, TrendsOf(s));
    DailySumsMatchTotals(s, days);
  }

  /** No records: zero totals, no trend entries. */
  lemma EmptyInput()
    ensures IncomeOf([]) == 0 && ExpensesOf([]) == 0
    ensures TrendsOf([]) == []
  {
  }

  /** Two income records and an expense over two days, the first two on day 0. */
  const TwoDays: seq<Transaction> := [
    Transaction(1, 7, Income, "Salary", 100, "Pay", 0, 0),
    Transaction(2, 7, Expense, "Food", 30, "Lunch", 1000, 0),
    Transaction(3, 7, Income, "Gift", 50, "Present", MillisPerDay, 0)]

  lemma TwoDaysTotals()
    ensures IncomeOf(TwoDays) == 150 && ExpensesOf(TwoDays) == 30
  {
    var s := TwoDays;
    assert Expense != Income by { assert Expense[0] != Income[0]; }
    assert s[..2][..1] == s[..1] && s[..1][..0] == [] && s[..2] == s[..|s| - 1];
    assert IncomeOf(s[..1]) == 100 && ExpensesOf(s[..1]) == 0;
    assert IncomeOf(s[..2]) == 100 && ExpensesOf(s[..2]) == 30;
  }

  /** The example's days, in first-occurrence order, and the records of each. */
  lemma TwoDaysGrouping()
    ensures DaysInOrder(TwoDays) == [0, 1]
    ensures OnDay(TwoDays, 0) == TwoDays[..2] && OnDay(TwoDays, 1) == [TwoDays[2]]
  {
    var s := TwoDays;
    assert DayOf(s[0].date) == 0 && DayOf(s[1].date) == 0 && DayOf(s[2].date) == 1;
    assert s[..2][..1] == s[..1] && s[..1][..0] == [] && s[..2] == s[..|s| - 1];
    assert DaysInOrder(s[..1]) == [0];
    assert DaysInOrder(s[..2]) == [0];
  }

  /** One trend entry per day, in first-occurrence order, each with its own balance. */
  lemma TwoDaysTrends()
    ensures TrendsOf(TwoDays) == [Trend(0, 100, 30, 70), Trend(1, 50, 0, 50)]
  {
    var s := TwoDays;
    TwoDaysGrouping();
    assert Expense != Income by { assert Expense[0] != Income[0]; }
    assert IsIncome(s[0]) && !IsIncome(s[1]) && IsIncome(s[2]);
    assert s[..2][..1] == s[..1] && s[..1][..0] == [] && [s[2]][..0] == [];
    assert IncomeOf(s[..2]) == 100 && ExpensesOf(s[..2]) == 30 by {
      assert IncomeOf(s[..1]) == 100 && ExpensesOf(s[..1]) == 0;
    }
    assert IncomeOf([s[2]]) == 50;
    assert ExpensesOf([s[2]]) == 0;
  }

  // ---------------------------------------------------------------------------
  // The whole computation
  // ---------------------------------------------------------------------------

  /**
   * `fetchData` after both replies have arrived: a summary reply without data is
   * an error, otherwise the reconciled summary and the trend series.
   */
  method ComputeDashboard(summaryData: Option<ServerSummary>, transactions: seq<Transaction>)
    returns (result: Result<DashboardData, DashboardError>)
    ensures summaryData.None? <==> result.Err?
    ensures result.Ok? ==>
      && result.value.summary == Reconcile(summaryData.value, Totals(IncomeOf(transactions), ExpensesOf(transactions)))
      && result.value.trends == TrendsOf(transactions)
      && result.value.transactions == transactions
  {
    if summaryData.None? {
      return Err(NoSummaryData);
    }
    var calculated := CalculateTotals(transactions);
    var summary := Reconcile(summaryData.value, calculated);
    var days, buckets := GroupByDay(transactions);
    var trends := MonthlyTrends(days, buckets);
    MonthlyTrendsOfGrouping(transactions, days, buckets);
    result := Ok(DashboardData(summary, trends, transactions));
  }
}
