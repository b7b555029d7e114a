/** The dashboard analytics of the expense service: this month against the
    last, the category breakdown of a period, the per-month category trend,
    the bucketed spend trend and the largest recent transactions. The clock
    reading `datetime.now()` is the parameter `now`. */
module ExpenseDashboard {
  import opened Options
  import opened Text
  import opened Calendar
  import opened Sequences
  import opened Sorting
  import opened Grouping
  import opened ExpenseRepository
  import opened ExpenseService

  // ------------------------------------------------------------ total spend

  datatype Direction = Increase | Decrease | Same

  /** The `change_direction` string sent to the client. */
  function DirectionText(d: Direction): string {
    match d
    case Increase => "increase"
    case Decrease => "decrease"
    case Same => "same"
  }

  /** Percentage change from `previous` to `current`; with no previous spend
      it is 100 when something was spent now and 0 otherwise. */
  function PercentageChange(current: int, previous: int): real {
    if previous > 0 then ((current - previous) as real / previous as real) * 100.0
    else if current > 0 then 100.0
    else 0.0
  }

  function DirectionOf(change: real): Direction {
    if change > 0.0 then Increase else if change < 0.0 then Decrease else Same
  }

  /** With a previous spend, the change recovers the current spend from the
      previous one. */
  lemma PercentageChangeInverse(current: int, previous: int)
    requires previous > 0
    ensures current as real == previous as real + previous as real * PercentageChange(current, previous) / 100.0
  {
    var p := previous as real;
    var c := current as real;
    assert PercentageChange(current, previous) == ((c - p) / p) * 100.0;
    assert p * (((c - p) / p) * 100.0) / 100.0 == c - p;
  }

  /** The direction tells which month spent more; from a zero (or negative)
      previous month any positive spend counts as an increase. */
  lemma DirectionOfChange(current: int, previous: int)
    ensures DirectionOf(PercentageChange(current, previous)) == Increase <==>
            (previous > 0 && current > previous) || (previous <= 0 && current > 0)
    ensures DirectionOf(PercentageChange(current, previous)) == Decrease <==>
            previous > 0 && current < previous
    ensures DirectionOf(PercentageChange(current, previous)) == Same <==>
            (previous > 0 && current == previous) || (previous <= 0 && current <= 0)
  {
    if previous > 0 {
      var p := previous as real;
      var c := current as real;
      assert PercentageChange(current, previous) == ((c - p) / p) * 100.0;
      if c > p {
        assert (c - p) / p > 0.0;
      } else if c < p {
        assert (c - p) / p < 0.0;
      }
    }
  }

  lemma PercentageChangeExamples()
    ensures PercentageChange(5000, 0) == 100.0 && DirectionOf(100.0) == Increase
    ensures PercentageChange(15000, 20000) == -25.0 && DirectionOf(-25.0) == Decrease
    ensures PercentageChange(10000, 10000) == 0.0 && DirectionOf(0.0) == Same
    ensures PercentageChange(0, 0) == 0.0
  {
  }

  datatype TotalSpendData = TotalSpendData(currentMonth: int, previousMonth: int, percentageChange: real, changeDirection: Direction)

  /** The month before `now`'s exists: `datetime` has no year 0. */
  predicate HasPreviousMonth(now: Instant) {
    var d := DateOf(now);
    !(d.year == 1 && d.month == 1)
  }

  /** The start and end of month (y, m) as instants. */
  function MonthBounds(y: int, m: int): (w: (Instant, Instant))
    requires y >= 1 && 1 <= m <= 12
    ensures w.0 == MonthStart(y, m) && w.1 == MonthEnd(y, m)
  {
    AtDate(Date(y, m, 1), 0, 0, 0, 0);
    AtDate(Date(y, m, DaysInMonth(y, m)), 23, 59, 59, 999_999);
    (MonthStart(y, m), MonthEnd(y, m))
  }

  /** `get_total_spend_dashboard`: the spend of the current and of the
      previous calendar month, and the change between them. */
  function TotalSpend(rows: seq<Expense>, owner: UserId, now: Instant): (r: TotalSpendData)
    requires HasPreviousMonth(now)
    ensures var d := DateOf(now);
            var p := PrevMonth(d.year, d.month);
            && r.currentMonth == Sum(MonthlyExpenses(rows, owner, d.year, d.month), AmountOf)
            && r.previousMonth == Sum(MonthlyExpenses(rows, owner, p.0, p.1), AmountOf)
            && r.percentageChange == PercentageChange(r.currentMonth, r.previousMonth)
            && r.changeDirection == DirectionOf(r.percentageChange)
  {
    var d := DateOf(now);
    var p := PrevMonth(d.year, d.month);
    var cur := MonthBounds(d.year, d.month);
    var prev := MonthBounds(p.0, p.1);
    MonthlyExpensesAsRange(rows, owner, d.year, d.month);
    MonthlyExpensesAsRange(rows, owner, p.0, p.1);
    var current := SumInPeriod(rows, owner, cur.0, cur.1);
    var previous := SumInPeriod(rows, owner, prev.0, prev.1);
    var change := PercentageChange(current, previous);
    TotalSpendData(current, previous, change, DirectionOf(change))
  }

  // ----------------------------------------------------- category breakdown

  /** The breakdown period has bounds: thirty days back from `now` is still
      in year 1 or later. */
  predicate BreakdownDefined(period: string, now: Instant) {
    period == "last_30_days" ==> now >= 30 * MicrosPerDay
  }

  /** The inclusive bounds `get_category_breakdown_dashboard` queries:
      `last_30_days` is the 30 days up to now, `current_year` runs from
      January 1 to now, and anything else is the current calendar month. */
  function BreakdownWindow(period: string, now: Instant): (w: (Instant, Instant))
    requires BreakdownDefined(period, now)
    ensures period == "last_30_days" ==> w == (now - 30 * MicrosPerDay, now)
    ensures period == "current_year" ==> w.1 == now && DateOf(w.0) == Date(DateOf(now).year, 1, 1) && w.0 % MicrosPerDay == 0
    ensures period != "last_30_days" && period != "current_year" ==>
              forall t: Instant {:trigger DateOf(t)} :: w.0 <= t <= w.1 <==> DateOf(t).year == DateOf(now).year && DateOf(t).month == DateOf(now).month
  {
    var d := DateOf(now);
    if period == "last_30_days" then (now - 30 * MicrosPerDay, now)
    else if period == "current_year" then
      AtDate(Date(d.year, 1, 1), 0, 0, 0, 0);
      (At(Date(d.year, 1, 1), 0, 0, 0, 0), now)
    else
      var w := MonthBounds(d.year, d.month);
      assert forall t: Instant {:trigger DateOf(t)} :: w.0 <= t <= w.1 <==> DateOf(t).year == d.year && DateOf(t).month == d.month by {
        forall t: Instant ensures w.0 <= t <= w.1 <==> DateOf(t).year == d.year && DateOf(t).month == d.month {
          InMonthIff(t, d.year, d.month);
        }
      }
      w
  }

  /** `get_category_breakdown_dashboard`: the period's category totals with
      their shares of the period total, largest first; no rows, no items. */
  method CategoryBreakdown(rows: seq<Expense>, owner: UserId, period: string, now: Instant) returns (items: seq<CategorySummary>)
    requires BreakdownDefined(period, now)
    ensures var w := BreakdownWindow(period, now);
            var groups := CategoryTotalsInPeriod(rows, owner, w.0, w.1);
            items == SortBy(Summaries(groups, Sum(groups, TotalAmountOf)), AmountDesc)
  {
    var w := BreakdownWindow(period, now);
    var categories := CategoryTotalsInPeriod(rows, owner, w.0, w.1);
    if categories == [] {
      return [];
    }
    var total := Sum(categories, TotalAmountOf);
    items := Summarize(categories, total);
    items := SortBy(items, AmountDesc);
  }

  /** The breakdown is the sorted category view of the period's rows: each
      item counts and sums its category's rows of the period, the items add
      up to the period, and the shares add up to 100 when something was spent. */
  lemma CategoryBreakdownIsView(rows: seq<Expense>, owner: UserId, period: string, now: Instant)
    requires BreakdownDefined(period, now)
    ensures var w := BreakdownWindow(period, now);
            var q := InPeriod(rows, owner, w.0, w.1);
            var groups := CategoryTotalsInPeriod(rows, owner, w.0, w.1);
            && Sum(groups, TotalAmountOf) == Sum(q, AmountOf)
            && SortBy(Summaries(groups, Sum(groups, TotalAmountOf)), AmountDesc)
               == SortBy(Summaries(GroupByCategory(q), Sum(q, AmountOf)), AmountDesc)
  {
    var w := BreakdownWindow(period, now);
    GroupByCategorySums(InPeriod(rows, owner, w.0, w.1));
  }

  // ------------------------------------------------------- top transactions

  /** The period start exists: a week back stays after year 1, and the same
      day of the previous month (or of the same month a year back) exists. */
  predicate TopStartDefined(period: string, now: Instant) {
    var d := DateOf(now);
    if period == "weekly" then now >= 7 * MicrosPerDay
    else if period == "yearly" then d.year >= 2 && d.day <= DaysInMonth(d.year - 1, d.month)
    else
      var p := PrevMonth(d.year, d.month);
      p.0 >= 1 && d.day <= DaysInMonth(p.0, p.1)
  }

  /** The start of the `get_top_transactions_dashboard` period: a week back,
      or midnight of the same day a year back (`yearly`) or a month back
      (`monthly` and anything else). */
  function TopStart(period: string, now: Instant): (t: Instant)
    requires TopStartDefined(period, now)
    ensures period == "weekly" ==> t == now - 7 * MicrosPerDay
    ensures period == "yearly" ==>
              t % MicrosPerDay == 0 && DateOf(t) == Date(DateOf(now).year - 1, DateOf(now).month, DateOf(now).day)
    ensures period != "weekly" && period != "yearly" ==>
              var p := PrevMonth(DateOf(now).year, DateOf(now).month);
              t % MicrosPerDay == 0 && DateOf(t) == Date(p.0, p.1, DateOf(now).day)
  {
    var d := DateOf(now);
    if period == "weekly" then now - 7 * MicrosPerDay
    else if period == "yearly" then
      AtDate(Date(d.year - 1, d.month, d.day), 0, 0, 0, 0);
      At(Date(d.year - 1, d.month, d.day), 0, 0, 0, 0)
    else
      var p := PrevMonth(d.year, d.month);
      AtDate(Date(p.0, p.1, d.day), 0, 0, 0, 0);
      At(Date(p.0, p.1, d.day), 0, 0, 0, 0)
  }

  /** On March 31 the monthly period has no start: February has no 31st, and
      `datetime` raises. */
  lemma TopStartUndefinedOnMarch31(now: Instant)
    requires DateOf(now) == Date(2025, 3, 31)
    ensures !TopStartDefined("monthly", now)
  {
  }

  /** `get_top_transactions_dashboard`: the owner's `limit` largest rows of
      the period. */
  function TopTransactionsDashboard(rows: seq<Expense>, owner: UserId, period: string, limit: nat, now: Instant): (r: seq<Expense>)
    requires TopStartDefined(period, now)
    ensures var n := |ExpensesSince(rows, owner, TopStart(period, now))|;
            |r| == if limit < n then limit else n
    ensures multiset(r) <= multiset(ExpensesSince(rows, owner, TopStart(period, now)))
    ensures forall e <- r :: e in rows && e.owner == owner && e.date >= TopStart(period, now)
    ensures SortedBy(r, LargestFirst)
    ensures forall x <- ExpensesSince(rows, owner, TopStart(period, now)), y <- r :: x !in r ==> x.amount <= y.amount
  {
    var start := TopStart(period, now);
    TopTransactionsProperties(rows, owner, start, limit);
    TopTransactions(rows, owner, start, limit)
  }

  // --------------------------------------------------------- category trend

  /** The month `months` months before (y, m). */
  function MonthsBack(y: int, m: int, months: int): (r: (int, int))
    ensures 1 <= r.1 <= 12
    ensures 12 * r.0 + r.1 == 12 * y + m - months
  {
    var i := 12 * y + m - months - 1;
    (i / 12, i % 12 + 1)
  }

  /** A month is determined by its position 12 * year + month. */
  lemma MonthPositionUnique(y1: int, m1: int, y2: int, m2: int)
    requires 1 <= m1 <= 12 && 1 <= m2 <= 12
    requires 12 * y1 + m1 == 12 * y2 + m2
    ensures y1 == y2 && m1 == m2
  {
  }

  /** The loop of `get_category_trend_dashboard` that starts at `months`
      months before (y, m) and borrows a year while the month is 0 or less. */
  method TrailingWindowStart(y: int, m: int, months: int) returns (sy: int, sm: int)
    requires 1 <= m <= 12 && m - months <= 12
    ensures (sy, sm) == MonthsBack(y, m, months)
  {
    sy := y;
    sm := m - months;
    while sm <= 0
      invariant sm <= 12
      invariant 12 * sy + sm == 12 * y + m - months
      decreases -sm
    {
      sm := sm + 12;
      sy := sy - 1;
    }
    var r := MonthsBack(y, m, months);
    MonthPositionUnique(sy, sm, r.0, r.1);
  }

  /** The trend window exists: the start month is not after December
      (a negative `months` may not reach into next year) and not before
      year 1. */
  predicate TrendDefined(now: Instant, months: int) {
    var d := DateOf(now);
    d.month - months <= 12 && 12 * d.year + d.month - months >= 13
  }

  /** The half-open range [first of the start month, first of the current
      month): the current month is not part of the trend. */
  function TrendWindow(now: Instant, months: int): (w: (Instant, Instant))
    requires TrendDefined(now, months)
    ensures var d := DateOf(now);
            var s := MonthsBack(d.year, d.month, months);
            s.0 >= 1 && w == (MonthStart(s.0, s.1), MonthStart(d.year, d.month))
  {
    var d := DateOf(now);
    var s := MonthsBack(d.year, d.month, months);
    var first := MonthBounds(s.0, s.1);
    var current := MonthBounds(d.year, d.month);
    (first.0, current.0)
  }

  /** Each group's (year, month) is the month of one of the grouped rows. */
  lemma GroupHasRow(q: seq<Expense>, g: MonthlyCategoryTotal)
    requires g in TallyMonths(Keys(q, MonthCategoryOf), q)
    ensures exists e <- q :: DateOf(e.date).year == g.year && DateOf(e.date).month == g.month
  {
    var ks := Keys(q, MonthCategoryOf);
    var gs := TallyMonths(ks, q);
    var i :| 0 <= i < |gs| && gs[i] == g;
    assert ks[i] in ks;
    var j :| 0 <= j < |q| && MonthCategoryOf(q[j]) == ks[i];
    assert q[j] in q;
  }

  /** Every (year, month) the trend reports lies in the window: from the
      start month up to, and not including, the current month. */
  lemma TrendWindowMonths(rows: seq<Expense>, owner: UserId, now: Instant, months: int)
    requires TrendDefined(now, months)
    ensures var d := DateOf(now);
            var w := TrendWindow(now, months);
            forall g <- MonthlyCategoryTotals(rows, owner, w.0, w.1) ::
              12 * d.year + d.month - months <= 12 * g.year + g.month < 12 * d.year + d.month
  {
    var d := DateOf(now);
    var s := MonthsBack(d.year, d.month, months);
    var w := TrendWindow(now, months);
    var q := InHalfOpen(rows, owner, w.0, w.1);
    forall g <- MonthlyCategoryTotals(rows, owner, w.0, w.1)
      ensures 12 * d.year + d.month - months <= 12 * g.year + g.month < 12 * d.year + d.month
    {
      GroupHasRow(q, g);
      var e :| e in q && DateOf(e.date).year == g.year && DateOf(e.date).month == g.month;
      InHalfOpenMember(rows, owner, w.0, w.1, e);
      MonthStartIff(e.date, s.0, s.1);
      MonthStartIff(e.date, d.year, d.month);
    }
  }

  /** The `month_key` of a group: `f"{year}-{month:02d}"`. */
  function MonthKey(g: MonthlyCategoryTotal): string {
    Digits(g.year) + "-" + Decimal(g.month, 2)
  }

  /** One entry of a `month_categories[month_key]` dict. */
  datatype CategoryShare = CategoryShare(category: string, amount: int)

  /** `d[category] = amount` on an insertion-ordered dict held as a list of
      entries: an existing entry is overwritten in place, a new one goes last. */
  function Assign(d: seq<CategoryShare>, category: string, amount: int): seq<CategoryShare>
    decreases |d|
  {
    if d == [] then [CategoryShare(category, amount)]
    else if d[0].category == category then [CategoryShare(category, amount)] + d[1..]
    else [d[0]] + Assign(d[1..], category, amount)
  }

  predicate HasCategory(d: seq<CategoryShare>, category: string) {
    exists e :: e in d && e.category == category
  }

  /** After the store, the entry for `category` holds `amount`, the entries
      for other categories are unchanged, and nothing else appears. */
  lemma {:induction false} AssignProperties(d: seq<CategoryShare>, category: string, amount: int)
    ensures CategoryShare(category, amount) in Assign(d, category, amount)
    ensures forall e <- Assign(d, category, amount) :: e == CategoryShare(category, amount) || e in d
    ensures forall e <- d :: e.category != category ==> e in Assign(d, category, amount)
    ensures forall c :: HasCategory(d, c) ==> HasCategory(Assign(d, category, amount), c)
    decreases |d|
  {
    if d != [] && d[0].category != category {
      AssignProperties(d[1..], category, amount);
      assert d == [d[0]] + d[1..];
      forall c | HasCategory(d, c)
        ensures HasCategory(Assign(d, category, amount), c)
      {
        var e :| e in d && e.category == c;
        if e != d[0] {
          assert e in d[1..];
          assert HasCategory(d[1..], c);
        }
      }
    } else if d != [] {
      forall c | HasCategory(d, c)
        ensures HasCategory(Assign(d, category, amount), c)
      {
        var e :| e in d && e.category == c;
        if e != d[0] {
          assert e in Assign(d, category, amount);
        }
      }
    }
  }

  // The trend below is stated for any month-key function mk; the service
  // uses MonthKey. Keeping the key abstract keeps the proofs about the dicts
  // independent of how the key string is spelled.

  /** `month_categories[k]` after the items s: the categories of the items
      with month key k, each holding the amount of the last of them. */
  function MonthCats(s: seq<MonthlyCategoryTotal>, mk: MonthlyCategoryTotal -> string, k: string): seq<CategoryShare>
    decreases |s|
  {
    if s == [] then []
    else
      var init := MonthCats(s[..|s| - 1], mk, k);
      var g := s[|s| - 1];
      if mk(g) == k then Assign(init, g.category, g.totalAmount) else init
  }

  /** `months_totals[k]` after the items s. */
  function MonthTotal(s: seq<MonthlyCategoryTotal>, mk: MonthlyCategoryTotal -> string, k: string): int {
    SumWhere(s, mk, k, MonthlyTotalOf)
  }

  lemma {:induction false} MonthCatsAbsent(s: seq<MonthlyCategoryTotal>, mk: MonthlyCategoryTotal -> string, k: string)
    requires k !in Keys(s, mk)
    ensures MonthCats(s, mk, k) == []
    decreases |s|
  {
    if s != [] {
      MonthCatsAbsent(s[..|s| - 1], mk, k);
    }
  }

  /** Every entry of a month comes from an item of that month, with that
      item's category and amount. */
  lemma {:induction false} MonthCatsSound(s: seq<MonthlyCategoryTotal>, mk: MonthlyCategoryTotal -> string, k: string)
    ensures forall e <- MonthCats(s, mk, k) :: exists j :: 0 <= j < |s| && mk(s[j]) == k && s[j].category == e.category && s[j].totalAmount == e.amount
    decreases |s|
  {
    if s != [] {
      var p := s[..|s| - 1];
      var g := s[|s| - 1];
      MonthCatsSound(p, mk, k);
      assert forall j :: 0 <= j < |p| ==> p[j] == s[j];
      if mk(g) == k {
        AssignProperties(MonthCats(p, mk, k), g.category, g.totalAmount);
      }
    }
  }

  /** Every item's category has an entry in its month. */
  lemma {:induction false} MonthCatsComplete(s: seq<MonthlyCategoryTotal>, mk: MonthlyCategoryTotal -> string, j: nat)
    requires j < |s|
    ensures HasCategory(MonthCats(s, mk, mk(s[j])), s[j].category)
    decreases |s|
  {
    var k := mk(s[j]);
    var p := s[..|s| - 1];
    var g := s[|s| - 1];
    if j < |s| - 1 {
      MonthCatsComplete(p, mk, j);
      assert p[j] == s[j];
      if mk(g) == k {
        AssignProperties(MonthCats(p, mk, k), g.category, g.totalAmount);
      }
    } else {
      AssignProperties(MonthCats(p, mk, k), g.category, g.totalAmount);
      assert CategoryShare(g.category, g.totalAmount) in MonthCats(s, mk, k);
    }
  }

  /** One point of the category trend. */
  datatype CategoryTrendMonth = CategoryTrendMonth(month: string, category: string, amount: int, percentage: real)

  /** The points of month k: each category's amount and its share of the month. */
  function MonthRows(k: string, d: seq<CategoryShare>, total: int): (r: seq<CategoryTrendMonth>)
    ensures |r| == |d|
    ensures forall i :: 0 <= i < |d| ==> r[i] == CategoryTrendMonth(k, d[i].category, d[i].amount, Share(d[i].amount, total))
  {
    seq(|d|, i requires 0 <= i < |d| => CategoryTrendMonth(k, d[i].category, d[i].amount, Share(d[i].amount, total)))
  }

  /** The `trend_data` list before sorting: month by month in the order of
      the keys ks, each month's categories in dict order. */
  function TrendRows(ks: seq<string>, s: seq<MonthlyCategoryTotal>, mk: MonthlyCategoryTotal -> string): seq<CategoryTrendMonth>
    decreases |ks|
  {
    if ks == [] then []
    else
      var k := ks[|ks| - 1];
      TrendRows(ks[..|ks| - 1], s, mk) + MonthRows(k, MonthCats(s, mk, k), MonthTotal(s, mk, k))
  }

  /** `key=lambda x: (x.month, -x.amount)`: months ascending, larger amounts
      first within a month. */
  predicate TrendLe(a: CategoryTrendMonth, b: CategoryTrendMonth) {
    if a.month == b.month then a.amount >= b.amount else StrLe(a.month, b.month)
  }

  lemma TrendLePreorder()
    ensures TotalPreorder(TrendLe)
  {
    forall a: CategoryTrendMonth, b: CategoryTrendMonth
      ensures TrendLe(a, b) || TrendLe(b, a)
    {
      StrLeTotal(a.month, b.month);
    }
    forall a: CategoryTrendMonth, b: CategoryTrendMonth, c: CategoryTrendMonth | TrendLe(a, b) && TrendLe(b, c)
      ensures TrendLe(a, c)
    {
      if a.month != b.month && b.month != c.month {
        if a.month == c.month {
          StrLeAntisymmetric(a.month, b.month);
        } else {
          StrLeTransitive(a.month, b.month, c.month);
        }
      }
    }
  }

  /** The category trend of the grouped items s. */
  function TrendData(s: seq<MonthlyCategoryTotal>, mk: MonthlyCategoryTotal -> string): seq<CategoryTrendMonth> {
    SortBy(TrendRows(Keys(s, mk), s, mk), TrendLe)
  }

  /** Scanning one more item updates only its own month: its key is added
      when new, its total grows by the amount and its category is stored. */
  lemma MonthStep(p: seq<MonthlyCategoryTotal>, g: MonthlyCategoryTotal, k: string, mk: MonthlyCategoryTotal -> string)
    ensures var s := p + [g];
            && Keys(s, mk) == (if mk(g) in Keys(p, mk) then Keys(p, mk) else Keys(p, mk) + [mk(g)])
            && MonthTotal(s, mk, k) == MonthTotal(p, mk, k) + (if mk(g) == k then g.totalAmount else 0)
            && MonthCats(s, mk, k) == (if mk(g) == k then Assign(MonthCats(p, mk, k), g.category, g.totalAmount) else MonthCats(p, mk, k))
  {
    assert (p + [g])[..|p + [g]| - 1] == p;
  }

  /** The dicts of the first loop after scanning the items p: the month keys
      in order of first appearance, with each month's total and categories. */
  ghost predicate MonthsScanned(p: seq<MonthlyCategoryTotal>, mk: MonthlyCategoryTotal -> string, order: seq<string>, totals: map<string, int>, cats: map<string, seq<CategoryShare>>) {
    && order == Keys(p, mk)
    && (forall k :: k in totals <==> k in order)
    && (forall k :: k in cats <==> k in order)
    && (forall k <- order :: totals[k] == MonthTotal(p, mk, k) && cats[k] == MonthCats(p, mk, k))
  }

  /** Each month key seen has its total and its category dict. */
  lemma MonthsScannedAt(p: seq<MonthlyCategoryTotal>, mk: MonthlyCategoryTotal -> string, order: seq<string>,
                        totals: map<string, int>, cats: map<string, seq<CategoryShare>>, k: string)
    requires MonthsScanned(p, mk, order, totals, cats) && k in order
    ensures k in totals && k in cats && totals[k] == MonthTotal(p, mk, k) && cats[k] == MonthCats(p, mk, k)
  {
  }

  /** One turn of the first loop keeps the dicts in step with the items: a
      new month key gets a zero total and an empty dict, then the item's
      amount is added to the total and stored under its category. */
  lemma MonthsScannedStep(p: seq<MonthlyCategoryTotal>, g: MonthlyCategoryTotal, mk: MonthlyCategoryTotal -> string, key: string,
                          order: seq<string>, totals: map<string, int>, cats: map<string, seq<CategoryShare>>,
                          order': seq<string>, totals': map<string, int>, cats': map<string, seq<CategoryShare>>)
    requires MonthsScanned(p, mk, order, totals, cats) && key == mk(g)
    requires order' == if key in totals then order else order + [key]
    requires totals' == totals[key := (if key in totals then totals[key] else 0) + g.totalAmount]
    requires cats' == cats[key := Assign(if key in cats then cats[key] else [], g.category, g.totalAmount)]
    ensures MonthsScanned(p + [g], mk, order', totals', cats')
  {
    MonthStep(p, g, key, mk);
    assert Keys(p + [g], mk) == order';
    if key !in totals {
      SumWhereAbsent(p, mk, key, MonthlyTotalOf);
      MonthCatsAbsent(p, mk, key);
    }
    assert totals'[key] == MonthTotal(p + [g], mk, key) && cats'[key] == MonthCats(p + [g], mk, key);
    forall k <- order'
      ensures totals'[k] == MonthTotal(p + [g], mk, k) && cats'[k] == MonthCats(p + [g], mk, k)
    {
      if k != key {
        MonthStep(p, g, k, mk);
        assert k in order;
      }
    }
  }

  /** The body of the first loop of `get_category_trend_dashboard`: a new
      month key gets a zero total and an empty dict, then the item's amount
      is added to the month's total and stored under its category. */
  method ScanItem(g: MonthlyCategoryTotal, key: string,
                  order: seq<string>, totals: map<string, int>, cats: map<string, seq<CategoryShare>>)
      returns (order': seq<string>, totals': map<string, int>, cats': map<string, seq<CategoryShare>>)
    ensures order' == if key in totals then order else order + [key]
    ensures totals' == totals[key := (if key in totals then totals[key] else 0) + g.totalAmount]
    ensures cats' == cats[key := Assign(if key in cats then cats[key] else [], g.category, g.totalAmount)]
  {
    order', totals', cats' := order, totals, cats;
    if key !in totals' {
      order' := order' + [key];
      totals' := totals'[key := 0];
    }
    if key !in cats' {
      cats' := cats'[key := []];
    }
    totals' := totals'[key := totals'[key] + g.totalAmount];
    cats' := cats'[key := Assign(cats'[key], g.category, g.totalAmount)];
  }

  /** One item of the first loop: its month key names the entry it goes to. */
  method AddItem(ghost p: seq<MonthlyCategoryTotal>, g: MonthlyCategoryTotal, mk: MonthlyCategoryTotal -> string,
                 order: seq<string>, totals: map<string, int>, cats: map<string, seq<CategoryShare>>)
      returns (order': seq<string>, totals': map<string, int>, cats': map<string, seq<CategoryShare>>)
    requires MonthsScanned(p, mk, order, totals, cats)
    ensures MonthsScanned(p + [g], mk, order', totals', cats')
  {
    var key := mk(g);
    order', totals', cats' := ScanItem(g, key, order, totals, cats);
    MonthsScannedStep(p, g, mk, key, order, totals, cats, order', totals', cats');
  }

  /** The first loop of `get_category_trend_dashboard`: per month key, the
      running total and the dict of category amounts. */
  method GroupMonths(s: seq<MonthlyCategoryTotal>, mk: MonthlyCategoryTotal -> string)
      returns (order: seq<string>, totals: map<string, int>, cats: map<string, seq<CategoryShare>>)
    ensures MonthsScanned(s, mk, order, totals, cats)
  {
    order, totals, cats := [], map[], map[];
    var i := 0;
    while i < |s|
      invariant 0 <= i <= |s|
      invariant MonthsScanned(s[..i], mk, order, totals, cats)
    {
      assert s[..i + 1] == s[..i] + [s[i]];
      order, totals, cats := AddItem(s[..i], s[i], mk, order, totals, cats);
      i := i + 1;
    }
    assert s[..i] == s;
  }

  lemma TrendRowsStep(ks: seq<string>, k: string, s: seq<MonthlyCategoryTotal>, mk: MonthlyCategoryTotal -> string)
    ensures TrendRows(ks + [k], s, mk) == TrendRows(ks, s, mk) + MonthRows(k, MonthCats(s, mk, k), MonthTotal(s, mk, k))
  {
    assert (ks + [k])[..|ks + [k]| - 1] == ks;
  }

  lemma MonthRowsStep(k: string, d: seq<CategoryShare>, c: nat, total: int)
    requires c < |d|
    ensures MonthRows(k, d[..c + 1], total)
            == MonthRows(k, d[..c], total) + [CategoryTrendMonth(k, d[c].category, d[c].amount, Share(d[c].amount, total))]
  {
  }

  /** The inner loop: one point per category of month k. */
  method AppendMonth(trend: seq<CategoryTrendMonth>, k: string, entries: seq<CategoryShare>, total: int)
      returns (r: seq<CategoryTrendMonth>)
    ensures r == trend + MonthRows(k, entries, total)
  {
    r := trend;
    var c := 0;
    while c < |entries|
      invariant 0 <= c <= |entries|
      invariant r == trend + MonthRows(k, entries[..c], total)
    {
      var e := entries[c];
      MonthRowsStep(k, entries, c, total);
      r := r + [CategoryTrendMonth(k, e.category, e.amount, Share(e.amount, total))];
      c := c + 1;
    }
    assert entries[..c] == entries;
  }

  /** `get_category_trend_dashboard` after the query: group by month, emit
      each month's categories with their shares of the month, and sort. */
  method Trend(s: seq<MonthlyCategoryTotal>, mk: MonthlyCategoryTotal -> string) returns (trend: seq<CategoryTrendMonth>)
    ensures trend == TrendData(s, mk)
  {
    var order, totals, cats := GroupMonths(s, mk);
    trend := [];
    var j := 0;
    while j < |order|
      invariant 0 <= j <= |order|
      invariant trend == TrendRows(order[..j], s, mk)
    {
      var k := order[j];
      MonthsScannedAt(s, mk, order, totals, cats, k);
      trend := AppendMonth(trend, k, cats[k], totals[k]);
      assert order[..j + 1] == order[..j] + [k];
      TrendRowsStep(order[..j], k, s, mk);
      j := j + 1;
    }
    assert order[..j] == order;
    trend := SortBy(trend, TrendLe);
  }

  /** `get_category_trend_dashboard`: the category amounts of each month of
      the window and their shares of that month's total, ordered by month. */
  method CategoryTrend(rows: seq<Expense>, owner: UserId, months: int, now: Instant) returns (trend: seq<CategoryTrendMonth>)
    requires TrendDefined(now, months)
    ensures var w := TrendWindow(now, months);
            trend == TrendData(MonthlyCategoryTotals(rows, owner, w.0, w.1), MonthKey)
  {
    var d := DateOf(now);
    var sy, sm := TrailingWindowStart(d.year, d.month, months);
    var first := MonthBounds(sy, sm);
    var current := MonthBounds(d.year, d.month);
    var monthly := MonthlyCategoryTotals(rows, owner, first.0, current.0);
    if monthly == [] {
      return [];
    }
    trend := Trend(monthly, MonthKey);
  }

  /** Each point of a month's rows carries that month's share and an entry of
      that month. */
  lemma {:induction false} TrendRowsSound(ks: seq<string>, s: seq<MonthlyCategoryTotal>, mk: MonthlyCategoryTotal -> string)
    ensures forall r <- TrendRows(ks, s, mk) ::
              r.percentage == Share(r.amount, MonthTotal(s, mk, r.month)) && CategoryShare(r.category, r.amount) in MonthCats(s, mk, r.month)
    decreases |ks|
  {
    if ks != [] {
      TrendRowsSound(ks[..|ks| - 1], s, mk);
      var k := ks[|ks| - 1];
      var m := MonthRows(k, MonthCats(s, mk, k), MonthTotal(s, mk, k));
      forall r <- m
        ensures r.percentage == Share(r.amount, MonthTotal(s, mk, r.month)) && CategoryShare(r.category, r.amount) in MonthCats(s, mk, r.month)
      {
        var i :| 0 <= i < |m| && m[i] == r;
        assert MonthCats(s, mk, k)[i] == CategoryShare(r.category, r.amount);
      }
    }
  }

  /** Every entry of every month among ks has its point. */
  lemma {:induction false} TrendRowsComplete(ks: seq<string>, s: seq<MonthlyCategoryTotal>, mk: MonthlyCategoryTotal -> string, k: string, c: string)
    requires k in ks && HasCategory(MonthCats(s, mk, k), c)
    ensures exists r <- TrendRows(ks, s, mk) :: r.month == k && r.category == c
    decreases |ks|
  {
    var last := ks[|ks| - 1];
    if k == last {
      var m := MonthRows(k, MonthCats(s, mk, k), MonthTotal(s, mk, k));
      var e :| e in MonthCats(s, mk, k) && e.category == c;
      var i :| 0 <= i < |MonthCats(s, mk, k)| && MonthCats(s, mk, k)[i] == e;
      assert m[i] in TrendRows(ks, s, mk);
    } else {
      assert k in ks[..|ks| - 1];
      TrendRowsComplete(ks[..|ks| - 1], s, mk, k, c);
    }
  }

  /** The category trend is ordered by month, and within a month by amount,
      largest first. */
  lemma CategoryTrendSorted(s: seq<MonthlyCategoryTotal>, mk: MonthlyCategoryTotal -> string)
    ensures SortedBy(TrendData(s, mk), TrendLe)
  {
    TrendLePreorder();
    SortBySorted(TrendRows(Keys(s, mk), s, mk), TrendLe);
  }

  /** Every point holds the amount of an item of its month and category, and
      its share of that month's total. */
  lemma CategoryTrendSound(s: seq<MonthlyCategoryTotal>, mk: MonthlyCategoryTotal -> string)
    ensures forall r <- TrendData(s, mk) :: r.percentage == Share(r.amount, MonthTotal(s, mk, r.month))
    ensures forall r <- TrendData(s, mk) :: exists j :: 0 <= j < |s| && mk(s[j]) == r.month && s[j].category == r.category && s[j].totalAmount == r.amount
  {
    var rows := TrendRows(Keys(s, mk), s, mk);
    TrendRowsSound(Keys(s, mk), s, mk);
    forall r <- TrendData(s, mk)
      ensures r.percentage == Share(r.amount, MonthTotal(s, mk, r.month))
      ensures exists j :: 0 <= j < |s| && mk(s[j]) == r.month && s[j].category == r.category && s[j].totalAmount == r.amount
    {
      SortByMembers(rows, TrendLe, r);
      MonthCatsSound(s, mk, r.month);
    }
  }

  /** Every item's month and category appear in the trend. */
  lemma CategoryTrendComplete(s: seq<MonthlyCategoryTotal>, mk: MonthlyCategoryTotal -> string)
    ensures forall j :: 0 <= j < |s| ==> exists r <- TrendData(s, mk) :: r.month == mk(s[j]) && r.category == s[j].category
  {
    var ks := Keys(s, mk);
    var rows := TrendRows(ks, s, mk);
    forall j | 0 <= j < |s|
      ensures exists r <- TrendData(s, mk) :: r.month == mk(s[j]) && r.category == s[j].category
    {
      MonthCatsComplete(s, mk, j);
      assert mk(s[j]) in ks;
      TrendRowsComplete(ks, s, mk, mk(s[j]), s[j].category);
      var r :| r in rows && r.month == mk(s[j]) && r.category == s[j].category;
      SortByMembers(rows, TrendLe, r);
    }
  }

  // ------------------------------------------------------------ spend trend

  /** How `get_spend_trend_dashboard` buckets the rows: by day (`daily` and
      any period it does not know), by ISO week, or by calendar month. */
  datatype Granularity = Daily | Weekly | Monthly

  function GranularityOf(period: string): Granularity {
    if period == "weekly" then Weekly else if period == "monthly" then Monthly else Daily
  }

  function Max(a: int, b: int): int { if a >= b then a else b }

  /** The look-back in days: `days` for `daily`, whole weeks and at least
      four of them for `weekly`, 30-day months and at least three of them for
      `monthly`, and 30 days otherwise. Python's `//` floors, as Dafny's `/`
      does for a positive divisor. */
  function LookbackDays(period: string, days: int): int {
    if period == "daily" then days
    else if period == "weekly" then Max(days / 7, 4) * 7
    else if period == "monthly" then Max(days / 30, 3) * 30
    else 30
  }

  /** The weekly look-back is a whole number of weeks, at least four, and
      the requested days rounded down to weeks when that is more; the monthly
      one likewise in 30-day months, at least three. */
  lemma LookbackBounds(period: string, days: int)
    ensures period == "weekly" ==> var l := LookbackDays(period, days);
              l % 7 == 0 && l >= 28 && (days >= 28 ==> days - 6 <= l <= days)
    ensures period == "monthly" ==> var l := LookbackDays(period, days);
              l % 30 == 0 && l >= 90 && (days >= 90 ==> days - 29 <= l <= days)
  {
  }

  /** The look-back stays within the calendar: `datetime` has no year 0. */
  predicate SpendTrendDefined(period: string, days: int, now: Instant) {
    now >= LookbackDays(period, days) * MicrosPerDay
  }

  function SpendStart(period: string, days: int, now: Instant): Instant
    requires SpendTrendDefined(period, days, now)
  {
    now - LookbackDays(period, days) * MicrosPerDay
  }

  /** The bucket of an instant, as the day ordinal of the bucket's first day:
      the day itself, the Monday of its ISO week (rebuilt with
      `datetime.fromisocalendar`), or the first of its month. */
  function BucketKey(g: Granularity, t: Instant): (k: int)
    ensures k >= 1
  {
    match g
    case Daily => DayOrdinal(t)
    case Weekly =>
      var n := DayOrdinal(t);
      FromIsoCalendarOfIsoWeek(n);
      FromIsoCalendar(IsoYear(n), IsoWeek(n), 1).value
    case Monthly =>
      var d := DateOf(t);
      FromOrdinalOfOrdinal(Date(d.year, d.month, 1));
      Ordinal(Date(d.year, d.month, 1))
  }

  /** A row's bucket is a day at or before the row's own day: that day for
      `daily`, the Monday of its ISO week for `weekly`, and the first of its
      month for `monthly`. */
  lemma BucketKeyDay(g: Granularity, t: Instant)
    ensures BucketKey(g, t) <= DayOrdinal(t)
    ensures g == Daily ==> BucketKey(g, t) == DayOrdinal(t)
    ensures g == Weekly ==> BucketKey(g, t) == MondayOf(DayOrdinal(t))
    ensures g == Monthly ==> FromOrdinal(BucketKey(g, t)) == Date(DateOf(t).year, DateOf(t).month, 1)
  {
    var n := DayOrdinal(t);
    match g
    case Daily =>
    case Weekly =>
      FromIsoCalendarOfIsoWeek(n);
    case Monthly =>
      var d := DateOf(t);
      var first := Date(d.year, d.month, 1);
      FromOrdinalOfOrdinal(first);
      assert Ordinal(first) <= Ordinal(d);
  }

  /** The label `bucket_info` gives a row: its date, its ISO week
      `YYYY-Www`, or its month `YYYY-MM`. */
  function BucketLabel(g: Granularity, t: Instant): string {
    match g
    case Daily => DayLabel(DateOf(t))
    case Weekly => WeekLabel(DayOrdinal(t))
    case Monthly => MonthLabel(DateOf(t))
  }

  /** The label of a bucket, read off its first day. */
  function KeyLabel(g: Granularity, k: int): string
    requires k >= 1
  {
    match g
    case Daily => DayLabel(FromOrdinal(k))
    case Weekly => WeekLabel(k)
    case Monthly => MonthLabel(FromOrdinal(k))
  }

  /** Every row of a bucket gets the same label, the bucket's own: so
      overwriting `data["label"]` row after row never changes it. */
  lemma LabelOfBucket(g: Granularity, t: Instant)
    ensures KeyLabel(g, BucketKey(g, t)) == BucketLabel(g, t)
  {
    var n := DayOrdinal(t);
    BucketKeyDay(g, t);
    match g
    case Daily =>
    case Weekly =>
      WeekLabelOfMonday(n);
    case Monthly =>
  }

  function BucketOf(g: Granularity): Expense -> int {
    (e: Expense) => BucketKey(g, e.date)
  }

  /** One `SpendTrendData` point. */
  datatype SpendPoint = SpendPoint(date: string, amount: int, transactionCount: int)

  function PointAmount(p: SpendPoint): int { p.amount }
  function PointCount(p: SpendPoint): int { p.transactionCount }

  /** The point of bucket k over the rows w. */
  function PointOf(g: Granularity, w: seq<Expense>, k: int): SpendPoint
    requires k >= 1
  {
    SpendPoint(KeyLabel(g, k), SumWhere(w, BucketOf(g), k, AmountOf), CountWhere(w, BucketOf(g), k))
  }

  function Points(g: Granularity, ks: seq<int>, w: seq<Expense>): (r: seq<SpendPoint>)
    requires forall i :: 0 <= i < |ks| ==> ks[i] >= 1
    ensures |r| == |ks|
    ensures forall i :: 0 <= i < |ks| ==> r[i] == PointOf(g, w, ks[i])
  {
    seq(|ks|, i requires 0 <= i < |ks| => PointOf(g, w, ks[i]))
  }

  /** `sorted(bucket_totals.keys())`: the buckets of the rows, ascending. */
  function SpendKeys(g: Granularity, w: seq<Expense>): (ks: seq<int>)
    ensures forall i :: 0 <= i < |ks| ==> ks[i] >= 1
  {
    var ks := SortBy(Keys(w, BucketOf(g)), IntLe);
    assert forall i :: 0 <= i < |ks| ==> ks[i] >= 1 by {
      forall i | 0 <= i < |ks|
        ensures ks[i] >= 1
      {
        SortByMembers(Keys(w, BucketOf(g)), IntLe, ks[i]);
      }
    }
    ks
  }

  /** The spend trend of the rows w: one point per bucket, in bucket order. */
  function SpendTrendPoints(g: Granularity, w: seq<Expense>): seq<SpendPoint> {
    Points(g, SpendKeys(g, w), w)
  }

  /** One entry of `bucket_totals`. */
  datatype Bucket = Bucket(amount: int, count: int, bucketLabel: string)

  /** `bucket_totals` after scanning the rows w, for any bucket function bk
      and label lab of a bucket: the buckets in order of first use, each
      with its sum, its count and its label. */
  ghost predicate Tallied(bk: Expense -> int, lab: int -> string, w: seq<Expense>, order: seq<int>, data: map<int, Bucket>) {
    && order == Keys(w, bk)
    && (forall k :: k in data <==> k in order)
    && (forall k <- order :: data[k] == Bucket(SumWhere(w, bk, k, AmountOf), CountWhere(w, bk, k), lab(k)))
  }

  /** The label of the bucket starting on day k. */
  function LabelFn(g: Granularity): int -> string {
    (k: int) => if k >= 1 then KeyLabel(g, k) else ""
  }

  /** `bucket_totals` after scanning the rows w. */
  ghost predicate BucketsScanned(g: Granularity, w: seq<Expense>, order: seq<int>, data: map<int, Bucket>) {
    && Tallied(BucketOf(g), LabelFn(g), w, order, data)
    && (forall k <- order :: k >= 1)
  }

  /** Each bucket seen starts on a day and holds its point. */
  lemma BucketsScannedAt(g: Granularity, w: seq<Expense>, order: seq<int>, data: map<int, Bucket>, k: int)
    requires BucketsScanned(g, w, order, data) && k in order
    ensures k >= 1 && k in data
    ensures SpendPoint(data[k].bucketLabel, data[k].amount, data[k].count) == PointOf(g, w, k)
  {
  }

  /** One kept row keeps the dict equal to the buckets of the rows scanned,
      whatever the bucket and label functions. */
  lemma TalliedStep(bk: Expense -> int, lab: int -> string, w: seq<Expense>, e: Expense,
                    key: int, name: string,
                    order: seq<int>, data: map<int, Bucket>, order': seq<int>, data': map<int, Bucket>)
    requires Tallied(bk, lab, w, order, data)
    requires key == bk(e) && name == lab(key)
    requires order' == (if key in data then order else order + [key])
    requires var b := if key in data then data[key] else Bucket(0, 0, "");
             data' == data[key := Bucket(b.amount + e.amount, b.count + 1, name)]
    ensures Tallied(bk, lab, w + [e], order', data')
  {
    GroupStep(w, e, bk, AmountOf, key);
    GroupStep(w, e, bk, One, key);
    if key !in data {
      SumWhereAbsent(w, bk, key, AmountOf);
      SumWhereAbsent(w, bk, key, One);
    }
    forall k <- order'
      ensures data'[k] == Bucket(SumWhere(w + [e], bk, k, AmountOf), CountWhere(w + [e], bk, k), lab(k))
    {
      if k != key {
        assert k in order;
        GroupStep(w, e, bk, AmountOf, k);
        GroupStep(w, e, bk, One, k);
      }
    }
  }

  /** The body of the bucketing loop for a row that is kept: the
      `defaultdict` creates the bucket on first use, then the amount, the
      count and the label are updated. */
  method ScanRow(key: int, name: string, amount: int, order: seq<int>, data: map<int, Bucket>)
      returns (order': seq<int>, data': map<int, Bucket>)
    ensures order' == (if key in data then order else order + [key])
    ensures var b := if key in data then data[key] else Bucket(0, 0, "");
            data' == data[key := Bucket(b.amount + amount, b.count + 1, name)]
  {
    order', data' := order, data;
    if key !in data' {
      data' := data'[key := Bucket(0, 0, "")];
      order' := order' + [key];
    }
    var b := data'[key];
    data' := data'[key := Bucket(b.amount + amount, b.count + 1, name)];
  }

  lemma BucketsScannedStep(g: Granularity, w: seq<Expense>, e: Expense, key: int, name: string,
                           order: seq<int>, data: map<int, Bucket>, order': seq<int>, data': map<int, Bucket>)
    requires BucketsScanned(g, w, order, data)
    requires key == BucketKey(g, e.date) && name == BucketLabel(g, e.date)
    requires order' == (if key in data then order else order + [key])
    requires var b := if key in data then data[key] else Bucket(0, 0, "");
             data' == data[key := Bucket(b.amount + e.amount, b.count + 1, name)]
    ensures BucketsScanned(g, w + [e], order', data')
  {
    assert BucketOf(g)(e) == key;
    LabelOfBucket(g, e.date);
    assert LabelFn(g)(key) == name;
    TalliedStep(BucketOf(g), LabelFn(g), w, e, key, name, order, data, order', data');
  }

  /** A kept row: `bucket_info` names its bucket, which then takes it in. */
  method AddRow(g: Granularity, ghost w: seq<Expense>, e: Expense, order: seq<int>, data: map<int, Bucket>)
      returns (order': seq<int>, data': map<int, Bucket>)
    requires BucketsScanned(g, w, order, data)
    ensures BucketsScanned(g, w + [e], order', data')
  {
    var key, name := BucketKey(g, e.date), BucketLabel(g, e.date);
    order', data' := ScanRow(key, name, e.amount, order, data);
    BucketsScannedStep(g, w, e, key, name, order, data, order', data');
  }

  /** The bucketing loop: skip rows before the start, add each other row to
      its bucket. */
  method CollectBuckets(g: Granularity, expenses: seq<Expense>, start: Instant)
      returns (order: seq<int>, data: map<int, Bucket>)
    ensures BucketsScanned(g, Filter(expenses, DateFrom(start)), order, data)
  {
    order, data := [], map[];
    ghost var w: seq<Expense> := [];
    var i := 0;
    while i < |expenses|
      invariant 0 <= i <= |expenses|
      invariant w == Filter(expenses[..i], DateFrom(start))
      invariant BucketsScanned(g, w, order, data)
    {
      var e := expenses[i];
      FilterPrefixStep(expenses, i, DateFrom(start));
      if e.date >= start {
        order, data := AddRow(g, w, e, order, data);
        w := w + [e];
      }
      i := i + 1;
    }
    assert expenses[..i] == expenses;
  }

  lemma PointsStep(g: Granularity, ks: seq<int>, w: seq<Expense>, j: nat)
    requires j < |ks| && forall i :: 0 <= i < |ks| ==> ks[i] >= 1
    ensures Points(g, ks[..j + 1], w) == Points(g, ks[..j], w) + [PointOf(g, w, ks[j])]
  {
  }

  /** `get_spend_trend_dashboard`: the owner's rows since the start of the
      look-back, summed and counted per bucket, one point per bucket in
      ascending bucket order. */
  method SpendTrend(rows: seq<Expense>, owner: UserId, period: string, days: int, now: Instant)
      returns (points: seq<SpendPoint>)
    requires SpendTrendDefined(period, days, now)
    ensures var g := GranularityOf(period);
            points == SpendTrendPoints(g, ExpensesSince(rows, owner, SpendStart(period, days, now)))
  {
    var start := SpendStart(period, days, now);
    var g := GranularityOf(period);
    var expenses := ExpensesSince(rows, owner, start);
    points := BucketPoints(g, expenses, start);
    FilterAll(expenses, DateFrom(start));
  }

  /** The bucketing loop over the rows, then the loop over the sorted bucket
      keys: one point per bucket of the rows dated from the start. */
  method BucketPoints(g: Granularity, expenses: seq<Expense>, start: Instant) returns (points: seq<SpendPoint>)
    ensures points == SpendTrendPoints(g, Filter(expenses, DateFrom(start)))
  {
    var order, data := CollectBuckets(g, expenses, start);
    ghost var w := Filter(expenses, DateFrom(start));
    var keys := SortBy(order, IntLe);
    assert keys == SpendKeys(g, w);
    SortedBucketsHoldPoints(g, w, order, data, keys);
    points := EmitPoints(g, w, keys, data);
  }

  /** Every sorted bucket key starts on a day and holds its point. */
  lemma SortedBucketsHoldPoints(g: Granularity, w: seq<Expense>, order: seq<int>, data: map<int, Bucket>, keys: seq<int>)
    requires BucketsScanned(g, w, order, data) && keys == SortBy(order, IntLe)
    ensures forall i :: 0 <= i < |keys| ==> keys[i] >= 1 && keys[i] in data && HoldsPoint(g, w, data, keys[i])
  {
    forall i | 0 <= i < |keys|
      ensures keys[i] >= 1 && keys[i] in data && HoldsPoint(g, w, data, keys[i])
    {
      SortByMembers(order, IntLe, keys[i]);
      BucketsScannedAt(g, w, order, data, keys[i]);
    }
  }

  /** The bucket of key k yields the point of k. */
  predicate HoldsPoint(g: Granularity, w: seq<Expense>, data: map<int, Bucket>, k: int)
    requires k >= 1 && k in data
  {
    SpendPoint(data[k].bucketLabel, data[k].amount, data[k].count) == PointOf(g, w, k)
  }

  /** The loop over the sorted bucket keys: one `SpendTrendData` per key,
      read off its bucket. */
  method EmitPoints(g: Granularity, ghost w: seq<Expense>, keys: seq<int>, data: map<int, Bucket>)
      returns (points: seq<SpendPoint>)
    requires forall i :: 0 <= i < |keys| ==> keys[i] >= 1 && keys[i] in data && HoldsPoint(g, w, data, keys[i])
    ensures points == Points(g, keys, w)
  {
    points := [];
    var j := 0;
    while j < |keys|
      invariant 0 <= j <= |keys|
      invariant points == Points(g, keys[..j], w)
    {
      var b := data[keys[j]];
      PointsStep(g, keys, w, j);
      points := points + [SpendPoint(b.bucketLabel, b.amount, b.count)];
      j := j + 1;
    }
    assert keys[..j] == keys;
  }

  /** The buckets are in strictly increasing (chronological) order, each row
      falls in exactly one of them, none is empty, and each point carries
      the label of its rows and their sum and count. */
  lemma SpendTrendBuckets(g: Granularity, w: seq<Expense>)
    ensures var ks := SpendKeys(g, w);
            var pts := SpendTrendPoints(g, w);
            && |pts| == |ks|
            && (forall i, j :: 0 <= i < j < |ks| ==> ks[i] < ks[j])
            && (forall e <- w :: BucketKey(g, e.date) in ks)
            && (forall i :: 0 <= i < |ks| ==> exists e <- w :: BucketKey(g, e.date) == ks[i])
            && (forall i :: 0 <= i < |ks| ==>
                  pts[i].amount == SumWhere(w, BucketOf(g), ks[i], AmountOf) &&
                  pts[i].transactionCount == CountWhere(w, BucketOf(g), ks[i]) && pts[i].transactionCount >= 1)
            && (forall i, e :: 0 <= i < |ks| && e in w && BucketKey(g, e.date) == ks[i] ==> pts[i].date == BucketLabel(g, e.date))
  {
    SpendKeysIncreasing(g, w);
    SpendKeysCover(g, w);
    SpendKeysUsed(g, w);
    forall i, e | 0 <= i < |SpendKeys(g, w)| && e in w && BucketKey(g, e.date) == SpendKeys(g, w)[i]
      ensures SpendTrendPoints(g, w)[i].date == BucketLabel(g, e.date)
    {
      LabelOfBucket(g, e.date);
    }
  }

  lemma SpendKeysIncreasing(g: Granularity, w: seq<Expense>)
    ensures var ks := SpendKeys(g, w);
            forall i, j :: 0 <= i < j < |ks| ==> ks[i] < ks[j]
  {
    var keys := Keys(w, BucketOf(g));
    IntLePreorder();
    SortBySorted(keys, IntLe);
    SortByDistinct(keys, IntLe);
    SortedDistinctIncreasing(SpendKeys(g, w));
  }

  /** Every row's bucket is among the keys. */
  lemma SpendKeysCover(g: Granularity, w: seq<Expense>)
    ensures forall e <- w :: BucketKey(g, e.date) in SpendKeys(g, w)
  {
    var keys := Keys(w, BucketOf(g));
    forall e <- w
      ensures BucketKey(g, e.date) in SpendKeys(g, w)
    {
      var i :| 0 <= i < |w| && w[i] == e;
      assert BucketOf(g)(w[i]) in keys;
      SortByMembers(keys, IntLe, BucketKey(g, e.date));
    }
  }

  /** Every key is the bucket of at least one row. */
  lemma SpendKeysUsed(g: Granularity, w: seq<Expense>)
    ensures var ks := SpendKeys(g, w);
            forall i :: 0 <= i < |ks| ==>
              (exists e <- w :: BucketKey(g, e.date) == ks[i]) && CountWhere(w, BucketOf(g), ks[i]) >= 1
  {
    var keys := Keys(w, BucketOf(g));
    var ks := SpendKeys(g, w);
    forall i | 0 <= i < |ks|
      ensures exists e <- w :: BucketKey(g, e.date) == ks[i]
      ensures CountWhere(w, BucketOf(g), ks[i]) >= 1
    {
      SortByMembers(keys, IntLe, ks[i]);
      var j :| 0 <= j < |w| && BucketOf(g)(w[j]) == ks[i];
      assert w[j] in w;
      CountWherePositive(w, BucketOf(g), ks[i]);
    }
  }


  lemma {:induction false} SumPoints(g: Granularity, ks: seq<int>, w: seq<Expense>)
    requires forall i :: 0 <= i < |ks| ==> ks[i] >= 1
    ensures Sum(Points(g, ks, w), PointAmount) == Sum(ks, GroupTotal(w, BucketOf(g), AmountOf))
    ensures Sum(Points(g, ks, w), PointCount) == Sum(ks, GroupTotal(w, BucketOf(g), One))
    decreases |ks|
  {
    if ks != [] {
      var init := ks[..|ks| - 1];
      SumPoints(g, init, w);
      assert Points(g, ks, w)[..|ks| - 1] == Points(g, init, w);
    }
  }

  /** The points partition the rows: the amounts add up to the rows' total
      and the counts to their number. */
  lemma SpendTrendTotals(g: Granularity, w: seq<Expense>)
    ensures Sum(SpendTrendPoints(g, w), PointAmount) == Sum(w, AmountOf)
    ensures Sum(SpendTrendPoints(g, w), PointCount) == |w|
  {
    var keys := Keys(w, BucketOf(g));
    var ks := SpendKeys(g, w);
    SumPoints(g, ks, w);
    SortBySum(keys, IntLe, GroupTotal(w, BucketOf(g), AmountOf));
    SortBySum(keys, IntLe, GroupTotal(w, BucketOf(g), One));
    SumOverKeysIsSum(keys, w, BucketOf(g), AmountOf);
    SumOverKeysIsSum(keys, w, BucketOf(g), One);
    GroupsPartition(w, BucketOf(g), AmountOf);
    CountsPartition(w, BucketOf(g));
  }
}
