/** The expense table and the queries the repository runs on it. The table is
    an in-memory sequence of rows; each query is a selection, an ordering, a
    grouping or a sum over that sequence. */
module ExpenseRepository {
  import opened Options
  import opened Text
  import opened Calendar
  import opened Sequences
  import opened Sorting
  import opened Grouping
  import TagCodec

  type UserId = nat

  /** One row of the expenses table. Amounts are integer cents; `tags` holds
      the JSON text written by the tag codec, or nothing. */
  datatype Expense = Expense(
    id: nat,
    owner: UserId,
    amount: int,
    currency: string,
    category: string,
    subcategory: Option<string>,
    merchant: Option<string>,
    description: Option<string>,
    date: Instant,
    paymentMethod: Option<string>,
    isRecurring: bool,
    recurrenceRule: Option<string>,
    tags: Option<string>,
    receiptUrl: Option<string>,
    createdAt: Instant)

  function AmountOf(e: Expense): int { e.amount }
  function CategoryOf(e: Expense): string { e.category }

  /** The optional keyword arguments of `_filtered_query`. */
  datatype Filters = Filters(
    start: Option<Instant>,
    end: Option<Instant>,
    category: Option<string>,
    minAmount: Option<int>,
    maxAmount: Option<int>,
    search: Option<string>)

  /** Only a date range, as `list_for_export` and `list_in_period` pass it. */
  function PeriodFilters(start: Option<Instant>, end: Option<Instant>): Filters {
    Filters(start, end, None, None, None, None)
  }

  // -------------------------------------------------------- filter clauses

  function OwnerIs(owner: UserId): Expense -> bool { (e: Expense) => e.owner == owner }
  function DateFrom(start: Instant): Expense -> bool { (e: Expense) => e.date >= start }
  function DateUntil(end: Instant): Expense -> bool { (e: Expense) => e.date <= end }
  function DateBefore(end: Instant): Expense -> bool { (e: Expense) => e.date < end }
  function Recurring(): Expense -> bool { (e: Expense) => e.isRecurring }

  /** `column ILIKE '%fragment%'`: the lower-cased fragment occurs in the
      lower-cased column; a NULL column matches nothing. */
  predicate ILikeContains(column: Option<string>, fragment: string) {
    column.Some? && Contains(Lower(column.value), Lower(fragment))
  }

  predicate SearchMatches(e: Expense, fragment: string) {
    ILikeContains(e.description, fragment) || ILikeContains(e.merchant, fragment)
    || ILikeContains(e.subcategory, fragment)
  }

  /** `_filtered_query`: the owner restriction, then each optional clause in
      turn, skipped when its argument is absent (or, for the category and the
      search text, empty). */
  function FilteredQuery(rows: seq<Expense>, owner: UserId, f: Filters): seq<Expense> {
    var q := Filter(rows, OwnerIs(owner));
    var q := When(q, f.start.Some?, StartClause(f));
    var q := When(q, f.end.Some?, EndClause(f));
    var q := When(q, f.category.Some? && f.category.value != "", CategoryClause(f));
    var q := When(q, f.minAmount.Some?, MinClause(f));
    var q := When(q, f.maxAmount.Some?, MaxClause(f));
    When(q, f.search.Some? && f.search.value != "", SearchClause(f))
  }

  // The clauses of `_filtered_query`, each read only where its argument is supplied.
  function StartClause(f: Filters): Expense -> bool { (e: Expense) => f.start.Some? ==> e.date >= f.start.value }
  function EndClause(f: Filters): Expense -> bool { (e: Expense) => f.end.Some? ==> e.date <= f.end.value }
  function CategoryClause(f: Filters): Expense -> bool { (e: Expense) => f.category.Some? ==> e.category == f.category.value }
  function MinClause(f: Filters): Expense -> bool { (e: Expense) => f.minAmount.Some? ==> e.amount >= f.minAmount.value }
  function MaxClause(f: Filters): Expense -> bool { (e: Expense) => f.maxAmount.Some? ==> e.amount <= f.maxAmount.value }
  function SearchClause(f: Filters): Expense -> bool { (e: Expense) => f.search.Some? ==> SearchMatches(e, f.search.value) }

  /** `query = query.filter(...)` when `applies` holds, the query unchanged otherwise. */
  function When(q: seq<Expense>, applies: bool, p: Expense -> bool): seq<Expense> {
    if applies then Filter(q, p) else q
  }

  /** One optional clause added to a selection narrows it to the conjunction. */
  lemma WhenNarrows(rows: seq<Expense>, acc: Expense -> bool, applies: bool, p: Expense -> bool, next: Expense -> bool)
    requires forall e :: next(e) == (acc(e) && (applies ==> p(e)))
    ensures When(Filter(rows, acc), applies, p) == Filter(rows, next)
  {
    if applies {
      FilterFilter(rows, acc, p, next);
    } else {
      FilterSame(rows, acc, next);
    }
  }

  /** What a row must satisfy to be returned, stated as one condition. */
  predicate Matches(e: Expense, owner: UserId, f: Filters) {
    && e.owner == owner
    && (f.start.Some? ==> e.date >= f.start.value)
    && (f.end.Some? ==> e.date <= f.end.value)
    && (f.category.Some? && f.category.value != "" ==> e.category == f.category.value)
    && (f.minAmount.Some? ==> e.amount >= f.minAmount.value)
    && (f.maxAmount.Some? ==> e.amount <= f.maxAmount.value)
    && (f.search.Some? && f.search.value != "" ==> SearchMatches(e, f.search.value))
  }

  function Matching(owner: UserId, f: Filters): Expense -> bool {
    (e: Expense) => Matches(e, owner, f)
  }

  /** The chain of clauses selects, in table order, exactly the rows that
      satisfy all the supplied conditions. */
  lemma FilteredQuerySelects(rows: seq<Expense>, owner: UserId, f: Filters)
    ensures FilteredQuery(rows, owner, f) == Filter(rows, Matching(owner, f))
  {
    FirstClausesSelect(rows, owner, f);
    LastClausesSelect(rows, owner, f);
  }

  /** The owner restriction and the date and category clauses select the
      rows meeting their conditions. */
  lemma FirstClausesSelect(rows: seq<Expense>, owner: UserId, f: Filters)
    ensures var q := Filter(rows, OwnerIs(owner));
            var q := When(q, f.start.Some?, StartClause(f));
            var q := When(q, f.end.Some?, EndClause(f));
            When(q, f.category.Some? && f.category.value != "", CategoryClause(f)) == Filter(rows, Stage(owner, f, 3))
  {
    FilterSame(rows, OwnerIs(owner), Stage(owner, f, 0));
    WhenNarrows(rows, Stage(owner, f, 0), f.start.Some?, StartClause(f), Stage(owner, f, 1));
    WhenNarrows(rows, Stage(owner, f, 1), f.end.Some?, EndClause(f), Stage(owner, f, 2));
    WhenNarrows(rows, Stage(owner, f, 2), f.category.Some? && f.category.value != "", CategoryClause(f), Stage(owner, f, 3));
  }

  /** The amount and search clauses, applied to the rows meeting the first
      conditions, leave the rows meeting them all. */
  lemma LastClausesSelect(rows: seq<Expense>, owner: UserId, f: Filters)
    ensures var q := Filter(rows, Stage(owner, f, 3));
            var q := When(q, f.minAmount.Some?, MinClause(f));
            var q := When(q, f.maxAmount.Some?, MaxClause(f));
            When(q, f.search.Some? && f.search.value != "", SearchClause(f)) == Filter(rows, Matching(owner, f))
  {
    WhenNarrows(rows, Stage(owner, f, 3), f.minAmount.Some?, MinClause(f), Stage(owner, f, 4));
    WhenNarrows(rows, Stage(owner, f, 4), f.maxAmount.Some?, MaxClause(f), Stage(owner, f, 5));
    WhenNarrows(rows, Stage(owner, f, 5), f.search.Some? && f.search.value != "", SearchClause(f), Stage(owner, f, 6));
    FilterSame(rows, Stage(owner, f, 6), Matching(owner, f));
  }

  /** The conditions of the first n optional clauses, with the owner's. */
  predicate MatchesUpTo(e: Expense, owner: UserId, f: Filters, n: nat) {
    && e.owner == owner
    && (n >= 1 ==> f.start.Some? ==> e.date >= f.start.value)
    && (n >= 2 ==> f.end.Some? ==> e.date <= f.end.value)
    && (n >= 3 ==> f.category.Some? && f.category.value != "" ==> e.category == f.category.value)
    && (n >= 4 ==> f.minAmount.Some? ==> e.amount >= f.minAmount.value)
    && (n >= 5 ==> f.maxAmount.Some? ==> e.amount <= f.maxAmount.value)
    && (n >= 6 ==> f.search.Some? && f.search.value != "" ==> SearchMatches(e, f.search.value))
  }

  function Stage(owner: UserId, f: Filters, n: nat): Expense -> bool {
    (e: Expense) => MatchesUpTo(e, owner, f, n)
  }

  /** A row is returned exactly when it is in the table and meets every
      supplied condition; in particular it always belongs to `owner`. */
  lemma FilteredQueryMember(rows: seq<Expense>, owner: UserId, f: Filters, e: Expense)
    ensures e in FilteredQuery(rows, owner, f) <==> e in rows && Matches(e, owner, f)
  {
    FilteredQuerySelects(rows, owner, f);
    FilterMember(rows, Matching(owner, f), e);
  }

  /** With no optional argument, the query is every row of the owner. */
  lemma NoFiltersSelectsOwner(rows: seq<Expense>, owner: UserId)
    ensures FilteredQuery(rows, owner, PeriodFilters(None, None)) == Filter(rows, OwnerIs(owner))
  {
  }

  // -------------------------------------------------------------- orderings

  /** `ORDER BY date DESC`; rows with equal dates keep table order. */
  predicate NewestFirst(a: Expense, b: Expense) { a.date >= b.date }

  /** `ORDER BY amount DESC`; rows with equal amounts keep table order. */
  predicate LargestFirst(a: Expense, b: Expense) { a.amount >= b.amount }

  lemma OrderingsArePreorders()
    ensures TotalPreorder(NewestFirst) && TotalPreorder(LargestFirst)
  {
  }

  // ----------------------------------------------------------- list queries

  /** One page of `list_expenses` and the number of rows across all pages. */
  datatype Listing = Listing(rows: seq<Expense>, total: nat)

  /** `list_expenses`: count the filtered rows, then return the page starting
      at `(page - 1) * limit`, newest first. */
  function ListExpenses(rows: seq<Expense>, owner: UserId, f: Filters, page: int, limit: int): Listing
    requires page >= 1 && limit >= 0
  {
    var q := FilteredQuery(rows, owner, f);
    Listing(Window(SortBy(q, NewestFirst), Offset(page, limit), limit), |q|)
  }

  /** `offset = (page - 1) * limit`: the rows of the earlier pages. */
  function Offset(page: int, limit: int): nat
    requires page >= 1 && limit >= 0
  {
    (page - 1) * limit
  }

  /** The count ignores paging; the page is the run of the full ordered
      result that begins at the page's offset, holds at most `limit` rows
      (exactly `limit` when enough rows follow the offset) and is newest
      first. */
  lemma ListExpensesPage(rows: seq<Expense>, owner: UserId, f: Filters, page: int, limit: int)
    requires page >= 1 && limit >= 0
    ensures var r := ListExpenses(rows, owner, f, page, limit);
            var all := SortBy(Filter(rows, Matching(owner, f)), NewestFirst);
            var offset := Offset(page, limit);
            && r.total == |Filter(rows, Matching(owner, f))| == |all|
            && r.rows == Window(all, offset, limit)
            && |r.rows| <= limit
            && (offset + limit <= r.total ==> |r.rows| == limit)
            && (offset >= r.total ==> r.rows == [])
            && SortedBy(r.rows, NewestFirst)
  {
    FilteredQuerySelects(rows, owner, f);
    SortedPage(Filter(rows, Matching(owner, f)), NewestFirst, Offset(page, limit), limit);
  }

  /** Every row on a page is a row of the table that meets all the filters. */
  lemma ListExpensesRowsMatch(rows: seq<Expense>, owner: UserId, f: Filters, page: int, limit: int)
    requires page >= 1 && limit >= 0
    ensures forall e <- ListExpenses(rows, owner, f, page, limit).rows :: e in rows && Matches(e, owner, f)
  {
    var q := FilteredQuery(rows, owner, f);
    var offset := Offset(page, limit);
    SortedPage(q, NewestFirst, offset, limit);
    forall e <- Window(SortBy(q, NewestFirst), offset, limit)
      ensures e in rows && Matches(e, owner, f)
    {
      FilteredQueryMember(rows, owner, f, e);
    }
  }

  /** `list_for_export`: the rows in the optional date range, newest first. */
  function ListForExport(rows: seq<Expense>, owner: UserId, start: Option<Instant>, end: Option<Instant>): seq<Expense> {
    SortBy(FilteredQuery(rows, owner, PeriodFilters(start, end)), NewestFirst)
  }

  /** `list_in_period`: the rows in the optional date range, in table order. */
  function ListInPeriod(rows: seq<Expense>, owner: UserId, start: Option<Instant>, end: Option<Instant>): seq<Expense> {
    FilteredQuery(rows, owner, PeriodFilters(start, end))
  }

  /** Both period listings return the owner's rows with start <= date <= end
      (each bound only when supplied), the export newest first. */
  lemma PeriodListings(rows: seq<Expense>, owner: UserId, start: Option<Instant>, end: Option<Instant>, e: Expense)
    ensures e in ListInPeriod(rows, owner, start, end)
            <==> e in rows && e.owner == owner
                 && (start.Some? ==> start.value <= e.date) && (end.Some? ==> e.date <= end.value)
    ensures e in ListForExport(rows, owner, start, end) <==> e in ListInPeriod(rows, owner, start, end)
    ensures SortedBy(ListForExport(rows, owner, start, end), NewestFirst)
  {
    FilteredQueryMember(rows, owner, PeriodFilters(start, end), e);
    SortByMembers(ListInPeriod(rows, owner, start, end), NewestFirst, e);
    SortBySorted(ListInPeriod(rows, owner, start, end), NewestFirst);
  }

  /** `get_recurring_expenses`: the owner's recurring rows, newest first. */
  function RecurringExpenses(rows: seq<Expense>, owner: UserId): seq<Expense> {
    SortBy(Filter(Filter(rows, OwnerIs(owner)), Recurring()), NewestFirst)
  }

  lemma RecurringExpensesMember(rows: seq<Expense>, owner: UserId, e: Expense)
    ensures e in RecurringExpenses(rows, owner) <==> e in rows && e.owner == owner && e.isRecurring
    ensures SortedBy(RecurringExpenses(rows, owner), NewestFirst)
  {
    var mine := Filter(rows, OwnerIs(owner));
    SortByMembers(Filter(mine, Recurring()), NewestFirst, e);
    FilterMember(mine, Recurring(), e);
    FilterMember(rows, OwnerIs(owner), e);
    SortBySorted(Filter(mine, Recurring()), NewestFirst);
  }

  /** `get_expenses_since`: the owner's rows dated on or after `start`. */
  function ExpensesSince(rows: seq<Expense>, owner: UserId, start: Instant): seq<Expense> {
    Filter(Filter(rows, OwnerIs(owner)), DateFrom(start))
  }

  lemma ExpensesSinceMember(rows: seq<Expense>, owner: UserId, start: Instant, e: Expense)
    ensures e in ExpensesSince(rows, owner, start) <==> e in rows && e.owner == owner && e.date >= start
  {
    FilterMember(Filter(rows, OwnerIs(owner)), DateFrom(start), e);
    FilterMember(rows, OwnerIs(owner), e);
  }

  /** `get_top_transactions`: the `limit` largest rows since `start`. */
  function TopTransactions(rows: seq<Expense>, owner: UserId, start: Instant, limit: nat): seq<Expense> {
    Take(SortBy(ExpensesSince(rows, owner, start), LargestFirst), limit)
  }

  /** `limit` rows, or the whole window when it is shorter, all the owner's
      and dated on or after `start`, largest first, and no row left out is
      larger than any row returned. */
  lemma TopTransactionsProperties(rows: seq<Expense>, owner: UserId, start: Instant, limit: nat)
    ensures var top := TopTransactions(rows, owner, start, limit);
            var n := |ExpensesSince(rows, owner, start)|;
            && |top| == (if limit < n then limit else n)
            && multiset(top) <= multiset(ExpensesSince(rows, owner, start))
            && (forall e <- top :: e in rows && e.owner == owner && e.date >= start)
            && SortedBy(top, LargestFirst)
            && (forall x <- ExpensesSince(rows, owner, start), y <- top :: x !in top ==> x.amount <= y.amount)
  {
    var window := ExpensesSince(rows, owner, start);
    var top := TopTransactions(rows, owner, start, limit);
    SortByLength(window, LargestFirst);
    TakeMultiset(SortBy(window, LargestFirst), limit);
    SortBySorted(window, LargestFirst);
    forall e <- top
      ensures e in rows && e.owner == owner && e.date >= start
    {
      SortByMembers(window, LargestFirst, e);
      ExpensesSinceMember(rows, owner, start, e);
    }
    TopDominates(window, limit);
  }

  /** The first `limit` rows of the window sorted largest first are at least
      as large as every row of the window left out. */
  lemma TopDominates(window: seq<Expense>, limit: nat)
    ensures var top := Take(SortBy(window, LargestFirst), limit);
            forall x <- window, y <- top :: x !in top ==> x.amount <= y.amount
  {
    var sorted := SortBy(window, LargestFirst);
    var top := Take(sorted, limit);
    SortBySorted(window, LargestFirst);
    forall x <- window, y <- top | x !in top
      ensures x.amount <= y.amount
    {
      SortByMembers(window, LargestFirst, x);
      var k :| 0 <= k < |sorted| && sorted[k] == x;
      var j :| 0 <= j < |top| && top[j] == y;
      assert k >= |top|;
      assert LargestFirst(sorted[j], sorted[k]);
    }
  }

  // ------------------------------------------------------------- aggregates

  /** One `GROUP BY category` row: the category, the summed amount and the
      number of rows. */
  datatype CategoryTotal = CategoryTotal(category: string, totalAmount: int, count: int)

  function TotalAmountOf(c: CategoryTotal): int { c.totalAmount }
  function CountOf(c: CategoryTotal): int { c.count }

  /** The group rows for the categories ks, in the order of ks. */
  function TallyCategories(ks: seq<string>, s: seq<Expense>): (r: seq<CategoryTotal>)
    ensures |r| == |ks|
    ensures forall i :: 0 <= i < |r| ==> r[i].category == ks[i]
    decreases |ks|
  {
    if ks == [] then []
    else
      var k := ks[|ks| - 1];
      TallyCategories(ks[..|ks| - 1], s) + [CategoryTotal(k, SumWhere(s, CategoryOf, k, AmountOf), CountWhere(s, CategoryOf, k))]
  }

  lemma {:induction false} TallyCategoriesSums(ks: seq<string>, s: seq<Expense>)
    ensures Sum(TallyCategories(ks, s), TotalAmountOf) == SumOverKeys(ks, s, CategoryOf, AmountOf)
    ensures Sum(TallyCategories(ks, s), CountOf) == SumOverKeys(ks, s, CategoryOf, One)
    decreases |ks|
  {
    if ks != [] {
      var r := TallyCategories(ks, s);
      assert r[..|r| - 1] == TallyCategories(ks[..|ks| - 1], s);
      TallyCategoriesSums(ks[..|ks| - 1], s);
    }
  }

  lemma {:induction false} TallyCategoriesEntries(ks: seq<string>, s: seq<Expense>, i: nat)
    requires i < |ks|
    ensures TallyCategories(ks, s)[i]
            == CategoryTotal(ks[i], SumWhere(s, CategoryOf, ks[i], AmountOf), CountWhere(s, CategoryOf, ks[i]))
    decreases |ks|
  {
    if i < |ks| - 1 {
      TallyCategoriesEntries(ks[..|ks| - 1], s, i);
    }
  }

  /** `GROUP BY category` over s, groups in order of first appearance. */
  function GroupByCategory(s: seq<Expense>): seq<CategoryTotal> {
    TallyCategories(Keys(s, CategoryOf), s)
  }

  /** One group per distinct category, and a group for every category that
      occurs in s. */
  lemma GroupByCategoryKeys(s: seq<Expense>)
    ensures var g := GroupByCategory(s);
            && (forall i, j :: 0 <= i < j < |g| ==> g[i].category != g[j].category)
            && (forall e <- s :: exists i :: 0 <= i < |g| && g[i].category == e.category)
            && (forall i :: 0 <= i < |g| ==> exists e <- s :: e.category == g[i].category)
  {
    var ks := Keys(s, CategoryOf);
    var g := GroupByCategory(s);
    forall e <- s
      ensures exists i :: 0 <= i < |g| && g[i].category == e.category
    {
      var j :| 0 <= j < |s| && s[j] == e;
      assert CategoryOf(s[j]) == e.category;
      assert e.category in ks;
      var i :| 0 <= i < |ks| && ks[i] == e.category;
      assert g[i].category == e.category;
    }
    forall i | 0 <= i < |g|
      ensures exists e <- s :: e.category == g[i].category
    {
      assert ks[i] in ks;
      var j :| 0 <= j < |s| && CategoryOf(s[j]) == ks[i];
      assert s[j] in s;
    }
  }

  /** Each group carries the sum and the number (at least one) of the rows
      of its category. */
  lemma GroupByCategoryEntries(s: seq<Expense>)
    ensures var g := GroupByCategory(s);
            forall i :: 0 <= i < |g| ==>
              && g[i].totalAmount == SumWhere(s, CategoryOf, g[i].category, AmountOf)
              && g[i].count == CountWhere(s, CategoryOf, g[i].category) >= 1
  {
    var ks := Keys(s, CategoryOf);
    var g := GroupByCategory(s);
    forall i | 0 <= i < |g|
      ensures g[i].totalAmount == SumWhere(s, CategoryOf, g[i].category, AmountOf)
      ensures g[i].count == CountWhere(s, CategoryOf, g[i].category) >= 1
    {
      TallyCategoriesEntries(ks, s, i);
      CountWherePositive(s, CategoryOf, ks[i]);
    }
  }

  /** The groups partition s: their totals add up to the total of s and
      their counts to the number of rows. */
  lemma GroupByCategorySums(s: seq<Expense>)
    ensures Sum(GroupByCategory(s), TotalAmountOf) == Sum(s, AmountOf)
    ensures Sum(GroupByCategory(s), CountOf) == |s|
  {
    var ks := Keys(s, CategoryOf);
    TallyCategoriesSums(ks, s);
    GroupsPartition(s, CategoryOf, AmountOf);
    CountsPartition(s, CategoryOf);
  }

  /** `get_category_totals`: the owner's rows grouped by category. */
  function CategoryTotals(rows: seq<Expense>, owner: UserId): seq<CategoryTotal> {
    GroupByCategory(Filter(rows, OwnerIs(owner)))
  }

  /** The owner's rows with start <= date <= end. */
  function InPeriod(rows: seq<Expense>, owner: UserId, start: Instant, end: Instant): seq<Expense> {
    Filter(Filter(Filter(rows, OwnerIs(owner)), DateFrom(start)), DateUntil(end))
  }

  lemma InPeriodMember(rows: seq<Expense>, owner: UserId, start: Instant, end: Instant, e: Expense)
    ensures e in InPeriod(rows, owner, start, end) <==> e in rows && e.owner == owner && start <= e.date <= end
  {
    FilterMember(Filter(Filter(rows, OwnerIs(owner)), DateFrom(start)), DateUntil(end), e);
    FilterMember(Filter(rows, OwnerIs(owner)), DateFrom(start), e);
    FilterMember(rows, OwnerIs(owner), e);
  }

  /** `get_category_totals_in_period`: grouped by category over inclusive bounds. */
  function CategoryTotalsInPeriod(rows: seq<Expense>, owner: UserId, start: Instant, end: Instant): seq<CategoryTotal> {
    GroupByCategory(InPeriod(rows, owner, start, end))
  }

  /** `sum_in_period`: the summed amount over inclusive bounds; `SUM` of no
      rows is NULL, which `float(total or 0)` turns into 0. */
  function SumInPeriod(rows: seq<Expense>, owner: UserId, start: Instant, end: Instant): int {
    var q := InPeriod(rows, owner, start, end);
    if q == [] then 0 else Sum(q, AmountOf)
  }

  /** The sum is 0 when no row falls in the period, and otherwise it is the
      total of the period's groups: the two aggregates agree. */
  lemma SumInPeriodProperties(rows: seq<Expense>, owner: UserId, start: Instant, end: Instant)
    ensures (forall e <- rows :: !(e.owner == owner && start <= e.date <= end)) ==> SumInPeriod(rows, owner, start, end) == 0
    ensures SumInPeriod(rows, owner, start, end) == Sum(CategoryTotalsInPeriod(rows, owner, start, end), TotalAmountOf)
  {
    var q := InPeriod(rows, owner, start, end);
    if forall e <- rows :: !(e.owner == owner && start <= e.date <= end) {
      if q != [] {
        InPeriodMember(rows, owner, start, end, q[0]);
      }
    }
    GroupByCategorySums(q);
  }

  /** `get_monthly_expenses`: the owner's rows whose date falls in the given
      calendar year and month. */
  function MonthlyExpenses(rows: seq<Expense>, owner: UserId, year: int, month: int): seq<Expense> {
    Filter(Filter(rows, OwnerIs(owner)), InMonth(year, month))
  }

  function InMonth(year: int, month: int): Expense -> bool {
    (e: Expense) => DateOf(e.date).year == year && DateOf(e.date).month == month
  }

  /** Matching on the extracted year and month is the same as the inclusive
      range from the month's first to its last microsecond. */
  lemma MonthlyExpensesAsRange(rows: seq<Expense>, owner: UserId, year: int, month: int)
    requires year >= 1 && 1 <= month <= 12
    ensures MonthlyExpenses(rows, owner, year, month) == InPeriod(rows, owner, MonthStart(year, month), MonthEnd(year, month))
  {
    var mine := Filter(rows, OwnerIs(owner));
    var both: Expense -> bool := (e: Expense) => MonthStart(year, month) <= e.date <= MonthEnd(year, month);
    forall e: Expense
      ensures InMonth(year, month)(e) == both(e)
    {
      InMonthIff(e.date, year, month);
    }
    FilterSame(mine, InMonth(year, month), both);
    FilterFilter(mine, DateFrom(MonthStart(year, month)), DateUntil(MonthEnd(year, month)), both);
  }

  /** The grouping key of `get_monthly_category_totals`. */
  datatype MonthCategory = MonthCategory(year: nat, month: nat, category: string)

  function MonthCategoryOf(e: Expense): MonthCategory {
    var d := DateOf(e.date);
    MonthCategory(d.year, d.month, e.category)
  }

  /** One `GROUP BY year, month, category` row. */
  datatype MonthlyCategoryTotal = MonthlyCategoryTotal(year: nat, month: nat, category: string, totalAmount: int)

  function MonthlyTotalOf(m: MonthlyCategoryTotal): int { m.totalAmount }

  function TallyMonths(ks: seq<MonthCategory>, s: seq<Expense>): (r: seq<MonthlyCategoryTotal>)
    ensures |r| == |ks|
    ensures forall i :: 0 <= i < |r| ==> MonthCategory(r[i].year, r[i].month, r[i].category) == ks[i]
    decreases |ks|
  {
    if ks == [] then []
    else
      var k := ks[|ks| - 1];
      TallyMonths(ks[..|ks| - 1], s) + [MonthlyCategoryTotal(k.year, k.month, k.category, SumWhere(s, MonthCategoryOf, k, AmountOf))]
  }

  lemma {:induction false} TallyMonthsSums(ks: seq<MonthCategory>, s: seq<Expense>)
    ensures Sum(TallyMonths(ks, s), MonthlyTotalOf) == SumOverKeys(ks, s, MonthCategoryOf, AmountOf)
    decreases |ks|
  {
    if ks != [] {
      var r := TallyMonths(ks, s);
      assert r[..|r| - 1] == TallyMonths(ks[..|ks| - 1], s);
      TallyMonthsSums(ks[..|ks| - 1], s);
    }
  }

  lemma {:induction false} TallyMonthsEntries(ks: seq<MonthCategory>, s: seq<Expense>, i: nat)
    requires i < |ks|
    ensures TallyMonths(ks, s)[i].totalAmount == SumWhere(s, MonthCategoryOf, ks[i], AmountOf)
    decreases |ks|
  {
    if i < |ks| - 1 {
      TallyMonthsEntries(ks[..|ks| - 1], s, i);
    }
  }

  /** The owner's rows with start <= date < end: the end is excluded. */
  function InHalfOpen(rows: seq<Expense>, owner: UserId, start: Instant, end: Instant): seq<Expense> {
    Filter(Filter(Filter(rows, OwnerIs(owner)), DateFrom(start)), DateBefore(end))
  }

  lemma InHalfOpenMember(rows: seq<Expense>, owner: UserId, start: Instant, end: Instant, e: Expense)
    ensures e in InHalfOpen(rows, owner, start, end) <==> e in rows && e.owner == owner && start <= e.date < end
  {
    FilterMember(Filter(Filter(rows, OwnerIs(owner)), DateFrom(start)), DateBefore(end), e);
    FilterMember(Filter(rows, OwnerIs(owner)), DateFrom(start), e);
    FilterMember(rows, OwnerIs(owner), e);
  }

  /** `get_monthly_category_totals`: grouped by (year, month, category) over
      the half-open range [start, end). */
  function MonthlyCategoryTotals(rows: seq<Expense>, owner: UserId, start: Instant, end: Instant): seq<MonthlyCategoryTotal> {
    var q := InHalfOpen(rows, owner, start, end);
    TallyMonths(Keys(q, MonthCategoryOf), q)
  }

  /** Each (year, month, category) occurs once, with the sum of exactly its
      rows of the half-open range, and the groups add up to the range's total. */
  lemma MonthlyCategoryTotalsProperties(rows: seq<Expense>, owner: UserId, start: Instant, end: Instant)
    ensures var q := InHalfOpen(rows, owner, start, end);
            var g := MonthlyCategoryTotals(rows, owner, start, end);
            && (forall i, j :: 0 <= i < j < |g| ==>
                  MonthCategory(g[i].year, g[i].month, g[i].category) != MonthCategory(g[j].year, g[j].month, g[j].category))
            && (forall i :: 0 <= i < |g| ==>
                  g[i].totalAmount == SumWhere(q, MonthCategoryOf, MonthCategory(g[i].year, g[i].month, g[i].category), AmountOf))
            && Sum(g, MonthlyTotalOf) == Sum(q, AmountOf)
  {
    var q := InHalfOpen(rows, owner, start, end);
    var ks := Keys(q, MonthCategoryOf);
    forall i | 0 <= i < |ks|
      ensures TallyMonths(ks, q)[i].totalAmount == SumWhere(q, MonthCategoryOf, ks[i], AmountOf)
    {
      TallyMonthsEntries(ks, q, i);
    }
    TallyMonthsSums(ks, q);
    GroupsPartition(q, MonthCategoryOf, AmountOf);
  }

  // ------------------------------------------------------------- mutations

  /** The fields of an `ExpenseCreate` payload. */
  datatype ExpenseCreate = ExpenseCreate(
    amount: int,
    currency: string,
    category: string,
    subcategory: Option<string>,
    merchant: Option<string>,
    description: Option<string>,
    date: Instant,
    paymentMethod: Option<string>,
    isRecurring: bool,
    recurrenceRule: Option<string>,
    tags: Option<seq<string>>)

  /** The row `create_expense` inserts; the table assigns the id and the
      creation time. */
  function NewExpense(id: nat, owner: UserId, data: ExpenseCreate, now: Instant): (e: Expense)
    ensures e.tags == TagCodec.EncodeStored(data.tags)
    ensures TagCodec.DecodeStored(e.tags) == (if data.tags.None? then [] else data.tags.value)
  {
    TagCodec.DecodeStoredEncodeStored(data.tags);
    Expense(id, owner, data.amount, data.currency, data.category, data.subcategory, data.merchant,
            data.description, data.date, data.paymentMethod, data.isRecurring, data.recurrenceRule,
            TagCodec.EncodeStored(data.tags), None, now)
  }

  /** The columns an update may set. */
  datatype Field =
    | AmountField | CurrencyField | CategoryField | SubcategoryField | MerchantField
    | DescriptionField | DateField | PaymentMethodField | RecurringField
    | RecurrenceRuleField | TagsField

  /** One `field: value` entry of the update payload. */
  datatype FieldUpdate =
    | SetAmount(amount: int)
    | SetCurrency(currency: string)
    | SetCategory(category: string)
    | SetSubcategory(subcategory: Option<string>)
    | SetMerchant(merchant: Option<string>)
    | SetDescription(description: Option<string>)
    | SetDate(date: Instant)
    | SetPaymentMethod(paymentMethod: Option<string>)
    | SetRecurring(isRecurring: bool)
    | SetRecurrenceRule(recurrenceRule: Option<string>)
    | SetTags(tags: Option<seq<string>>)

  function FieldOf(u: FieldUpdate): Field {
    match u
    case SetAmount(_) => AmountField
    case SetCurrency(_) => CurrencyField
    case SetCategory(_) => CategoryField
    case SetSubcategory(_) => SubcategoryField
    case SetMerchant(_) => MerchantField
    case SetDescription(_) => DescriptionField
    case SetDate(_) => DateField
    case SetPaymentMethod(_) => PaymentMethodField
    case SetRecurring(_) => RecurringField
    case SetRecurrenceRule(_) => RecurrenceRuleField
    case SetTags(_) => TagsField
  }

  function FieldsOf(us: seq<FieldUpdate>): set<Field> {
    set u | u in us :: FieldOf(u)
  }

  /** `setattr(expense, field, value)`; a tag list is first replaced by its
      stored form, as `update_expense` does before its loop. */
  function Apply(e: Expense, u: FieldUpdate): Expense {
    match u
    case SetAmount(a) => e.(amount := a)
    case SetCurrency(c) => e.(currency := c)
    case SetCategory(c) => e.(category := c)
    case SetSubcategory(v) => e.(subcategory := v)
    case SetMerchant(v) => e.(merchant := v)
    case SetDescription(v) => e.(description := v)
    case SetDate(d) => e.(date := d)
    case SetPaymentMethod(v) => e.(paymentMethod := v)
    case SetRecurring(b) => e.(isRecurring := b)
    case SetRecurrenceRule(v) => e.(recurrenceRule := v)
    case SetTags(t) => e.(tags := TagCodec.EncodeStored(t))
  }

  /** The updates applied in payload order. */
  function ApplyAll(e: Expense, us: seq<FieldUpdate>): Expense
    decreases |us|
  {
    if us == [] then e else Apply(ApplyAll(e, us[..|us| - 1]), us[|us| - 1])
  }

  /** a and b agree on every column outside `fields`, and on the columns no
      update can touch (id, owner, receipt and creation time). */
  predicate SameExcept(a: Expense, b: Expense, fields: set<Field>) {
    && a.id == b.id && a.owner == b.owner && a.receiptUrl == b.receiptUrl && a.createdAt == b.createdAt
    && (AmountField !in fields ==> a.amount == b.amount)
    && (CurrencyField !in fields ==> a.currency == b.currency)
    && (CategoryField !in fields ==> a.category == b.category)
    && (SubcategoryField !in fields ==> a.subcategory == b.subcategory)
    && (MerchantField !in fields ==> a.merchant == b.merchant)
    && (DescriptionField !in fields ==> a.description == b.description)
    && (DateField !in fields ==> a.date == b.date)
    && (PaymentMethodField !in fields ==> a.paymentMethod == b.paymentMethod)
    && (RecurringField !in fields ==> a.isRecurring == b.isRecurring)
    && (RecurrenceRuleField !in fields ==> a.recurrenceRule == b.recurrenceRule)
    && (TagsField !in fields ==> a.tags == b.tags)
  }

  /** The column named by u holds u's value (tags in stored form). */
  predicate Holds(e: Expense, u: FieldUpdate) {
    match u
    case SetAmount(a) => e.amount == a
    case SetCurrency(c) => e.currency == c
    case SetCategory(c) => e.category == c
    case SetSubcategory(v) => e.subcategory == v
    case SetMerchant(v) => e.merchant == v
    case SetDescription(v) => e.description == v
    case SetDate(d) => e.date == d
    case SetPaymentMethod(v) => e.paymentMethod == v
    case SetRecurring(b) => e.isRecurring == b
    case SetRecurrenceRule(v) => e.recurrenceRule == v
    case SetTags(t) => e.tags == TagCodec.EncodeStored(t)
  }

  /** One `setattr` changes only its own column. */
  lemma ApplyUntouched(e: Expense, u: FieldUpdate)
    ensures SameExcept(Apply(e, u), e, {FieldOf(u)})
  {
  }

  /** Columns kept by two steps in a row are kept by both together. */
  lemma SameExceptCompose(a: Expense, b: Expense, c: Expense, f: set<Field>, g: set<Field>)
    requires SameExcept(a, b, f) && SameExcept(b, c, g)
    ensures SameExcept(a, c, f + g)
  {
  }

  /** Fields not in the payload are left alone. */
  lemma {:induction false} ApplyAllUntouched(e: Expense, us: seq<FieldUpdate>)
    ensures SameExcept(ApplyAll(e, us), e, FieldsOf(us))
    decreases |us|
  {
    if us != [] {
      var init := us[..|us| - 1];
      var last := us[|us| - 1];
      var mid := ApplyAll(e, init);
      ApplyAllUntouched(e, init);
      ApplyUntouched(mid, last);
      SameExceptCompose(Apply(mid, last), mid, e, {FieldOf(last)}, FieldsOf(init));
      assert FieldsOf(us) == {FieldOf(last)} + FieldsOf(init) by {
        assert us == init + [last];
      }
    }
  }

  /** A `setattr` stores its value. */
  lemma ApplyHolds(e: Expense, u: FieldUpdate)
    ensures Holds(Apply(e, u), u)
  {
  }

  /** A `setattr` keeps what another field holds. */
  lemma ApplyKeeps(e: Expense, u: FieldUpdate, v: FieldUpdate)
    requires FieldOf(u) != FieldOf(v) && Holds(e, v)
    ensures Holds(Apply(e, u), v)
  {
  }

  /** With one entry per field (a dict's keys are distinct), every supplied
      field ends up holding its supplied value. */
  lemma {:induction false} ApplyAllSupplied(e: Expense, us: seq<FieldUpdate>)
    requires forall i, j :: 0 <= i < j < |us| ==> FieldOf(us[i]) != FieldOf(us[j])
    ensures forall i :: 0 <= i < |us| ==> Holds(ApplyAll(e, us), us[i])
    decreases |us|
  {
    if us != [] {
      var init := us[..|us| - 1];
      var last := us[|us| - 1];
      var mid := ApplyAll(e, init);
      ApplyAllSupplied(e, init);
      forall i | 0 <= i < |us|
        ensures Holds(ApplyAll(e, us), us[i])
      {
        if i < |us| - 1 {
          assert init[i] == us[i];
          ApplyKeeps(mid, last, us[i]);
        } else {
          ApplyHolds(mid, last);
        }
      }
    }
  }

  /** The first row with this id and owner (`.first()`), as an index. */
  function FindRow(rows: seq<Expense>, id: nat, owner: UserId): (r: Option<nat>)
    ensures r.Some? ==> r.value < |rows| && rows[r.value].id == id && rows[r.value].owner == owner
    ensures r.Some? ==> forall i :: 0 <= i < r.value ==> !(rows[i].id == id && rows[i].owner == owner)
    ensures r.None? ==> forall i :: 0 <= i < |rows| ==> !(rows[i].id == id && rows[i].owner == owner)
    decreases |rows|
  {
    if rows == [] then None
    else if rows[0].id == id && rows[0].owner == owner then Some(0)
    else match FindRow(rows[1..], id, owner)
      case None => None
      case Some(i) => Some(i + 1)
  }

  /** The expense table. Ids are handed out in increasing order, so they are
      distinct. */
  class Ledger {
    var rows: seq<Expense>
    var nextId: nat

    ghost predicate Valid()
      reads this
    {
      && (forall i :: 0 <= i < |rows| ==> rows[i].id < nextId)
      && (forall i, j :: 0 <= i < j < |rows| ==> rows[i].id != rows[j].id)
    }

    constructor ()
      ensures Valid() && rows == [] && nextId == 0
    {
      rows := [];
      nextId := 0;
    }

    /** `get_expense_for_user`. */
    function GetForUser(id: nat, owner: UserId): (r: Option<Expense>)
      reads this
      ensures r.Some? <==> exists i :: 0 <= i < |rows| && rows[i].id == id && rows[i].owner == owner
      ensures r.Some? ==> r.value in rows && r.value.id == id && r.value.owner == owner
    {
      match FindRow(rows, id, owner)
      case None => None
      case Some(i) => Some(rows[i])
    }

    /** `create_expense`: insert the new row and hand it back. */
    method Create(owner: UserId, data: ExpenseCreate, now: Instant) returns (e: Expense)
      requires Valid()
      modifies this
      ensures Valid()
      ensures e == NewExpense(old(nextId), owner, data, now)
      ensures rows == old(rows) + [e] && nextId == old(nextId) + 1
      ensures GetForUser(e.id, owner) == Some(e)
    {
      e := NewExpense(nextId, owner, data, now);
      rows := rows + [e];
      nextId := nextId + 1;
      assert rows[|rows| - 1] == e;
      var found := FindRow(rows, e.id, owner);
      assert found.Some?;
      assert found.value == |rows| - 1;
    }

    /** `update_expense` on row i: set each supplied field in turn. */
    method Update(i: nat, updates: seq<FieldUpdate>) returns (e: Expense)
      requires Valid() && i < |rows|
      modifies this
      ensures Valid() && nextId == old(nextId)
      ensures e == ApplyAll(old(rows)[i], updates)
      ensures rows == old(rows)[i := e]
    {
      var row := rows[i];
      var k := 0;
      while k < |updates|
        invariant 0 <= k <= |updates|
        invariant row == ApplyAll(old(rows)[i], updates[..k])
      {
        assert updates[..k + 1][..k] == updates[..k];
        row := Apply(row, updates[k]);
        k := k + 1;
      }
      assert updates[..k] == updates;
      ApplyAllUntouched(old(rows)[i], updates);
      rows := rows[i := row];
      e := row;
    }

    /** `delete_expense` on row i. */
    method Delete(i: nat)
      requires Valid() && i < |rows|
      modifies this
      ensures Valid() && nextId == old(nextId)
      ensures rows == old(rows)[..i] + old(rows)[i + 1..]
    {
      rows := rows[..i] + rows[i + 1..];
      assert forall k :: 0 <= k < |rows| ==> rows[k] == if k < i then old(rows)[k] else old(rows)[k + 1];
    }

    /** `set_receipt_url` on row i. */
    method SetReceiptUrl(i: nat, url: string) returns (e: Expense)
      requires Valid() && i < |rows|
      modifies this
      ensures Valid() && nextId == old(nextId)
      ensures e == old(rows)[i].(receiptUrl := Some(url))
      ensures rows == old(rows)[i := e]
    {
      e := rows[i].(receiptUrl := Some(url));
      rows := rows[i := e];
    }
  }
}
