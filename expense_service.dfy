/** The expense service: responses with decoded tags, paging metadata, the
    category summaries built by scanning rows into a dict, and the CSV export. */
module ExpenseService {
  import opened Options
  import opened Text
  import opened Calendar
  import opened Sequences
  import opened Sorting
  import opened Grouping
  import opened ExpenseRepository
  import TagCodec

  // ------------------------------------------------------------ responses

  /** `_expense_to_response`: the row with its `tags` column decoded. */
  datatype ExpenseResponse = ExpenseResponse(expense: Expense, tags: seq<string>)

  /** The row itself, with the tags its stored column decodes to. */
  function ToResponse(e: Expense): (r: ExpenseResponse)
    ensures r.expense == e && r.tags == TagCodec.DecodeStored(e.tags)
  {
    ExpenseResponse(e, TagCodec.DecodeStored(e.tags))
  }

  /** The tags given at creation are the tags every response shows. */
  lemma CreatedTagsReadBack(id: nat, owner: UserId, data: ExpenseCreate, now: Instant)
    ensures ToResponse(NewExpense(id, owner, data, now)).tags == (if data.tags.None? then [] else data.tags.value)
  {
  }

  /** After an update that sets the tags, responses show the new tags. */
  lemma UpdatedTagsReadBack(e: Expense, tags: Option<seq<string>>)
    ensures ToResponse(Apply(e, SetTags(tags))).tags == (if tags.None? then [] else tags.value)
  {
    TagCodec.DecodeStoredEncodeStored(tags);
  }

  // ---------------------------------------------------------------- paging

  /** `(total + limit - 1) // limit`; the divisor is positive, so floor and
      Euclidean division agree. */
  function Pages(total: nat, limit: int): (p: nat)
    requires limit >= 1
  {
    (total + limit - 1) / limit
  }

  /** The page count is the ceiling of total / limit: the least p with
      p * limit >= total. */
  lemma PagesIsCeiling(total: nat, limit: int)
    requires limit >= 1
    ensures total <= Pages(total, limit) * limit < total + limit
  {
    var n := total + limit - 1;
    var q := n / limit;
    var r := n % limit;
    assert n == q * limit + r && 0 <= r < limit;
  }

  lemma PagesExamples()
    ensures Pages(5, 2) == 3 && Pages(4, 2) == 2 && Pages(0, 50) == 0 && Pages(1, 50) == 1
  {
  }

  datatype PageMeta = PageMeta(page: int, limit: int, total: nat, pages: nat)

  datatype ExpensePage = ExpensePage(data: seq<ExpenseResponse>, meta: PageMeta)

  /** The response of each row, in order (a list comprehension). */
  function Responses(es: seq<Expense>): (r: seq<ExpenseResponse>)
    ensures |r| == |es|
    ensures forall i :: 0 <= i < |r| ==> r[i] == ToResponse(es[i])
  {
    seq(|es|, i requires 0 <= i < |es| => ToResponse(es[i]))
  }

  /** `get_expenses`: one page of responses and the paging metadata. */
  function GetExpenses(rows: seq<Expense>, owner: UserId, f: Filters, page: int, limit: int): (r: ExpensePage)
    requires page >= 1 && limit >= 1
    ensures |r.data| <= limit
    ensures r.data == Responses(Window(SortBy(Filter(rows, Matching(owner, f)), NewestFirst), Offset(page, limit), limit))
    ensures r.meta.total == |Filter(rows, Matching(owner, f))|
    ensures r.meta.page == page && r.meta.limit == limit
    ensures r.meta.total <= r.meta.pages * limit < r.meta.total + limit
    ensures forall i :: 0 <= i < |r.data| ==>
              r.data[i].expense in rows && Matches(r.data[i].expense, owner, f)
              && r.data[i].tags == TagCodec.DecodeStored(r.data[i].expense.tags)
  {
    var listing := ListExpenses(rows, owner, f, page, limit);
    ListExpensesPage(rows, owner, f, page, limit);
    ListExpensesRowsMatch(rows, owner, f, page, limit);
    PagesIsCeiling(listing.total, limit);
    var data := Responses(listing.rows);
    assert forall i :: 0 <= i < |data| ==> data[i].expense == listing.rows[i];
    ExpensePage(data, PageMeta(page, limit, listing.total, Pages(listing.total, limit)))
  }

  // ----------------------------------------------------- category summaries

  /** A `CategorySummary` (also the shape of a dashboard breakdown item). */
  datatype CategorySummary = CategorySummary(category: string, totalAmount: int, count: int, percentage: real)

  function SummaryAmount(c: CategorySummary): int { c.totalAmount }
  function SummaryCount(c: CategorySummary): int { c.count }

  /** `(part / total) * 100 if total > 0 else 0`. */
  function Share(part: int, total: int): real {
    if total > 0 then (part as real / total as real) * 100.0 else 0.0
  }

  /** Shares of one total add up. */
  lemma ShareAdditive(a: int, b: int, total: int)
    ensures Share(a + b, total) == Share(a, total) + Share(b, total)
  {
    if total > 0 {
      var t := total as real;
      assert (a + b) as real / t == a as real / t + b as real / t;
    }
  }

  lemma ShareOfTotal(total: int)
    requires total > 0
    ensures Share(total, total) == 100.0
  {
    var t := total as real;
    assert t > 0.0;
    assert t / t == 1.0;
  }

  function SummaryOf(g: CategoryTotal, total: int): CategorySummary {
    CategorySummary(g.category, g.totalAmount, g.count, Share(g.totalAmount, total))
  }

  /** The summary of each group, in group order. */
  function Summaries(groups: seq<CategoryTotal>, total: int): (r: seq<CategorySummary>) {
    seq(|groups|, i requires 0 <= i < |groups| => SummaryOf(groups[i], total))
  }

  /** `sort(key=lambda x: x.total_amount, reverse=True)`: a stable sort, so
      equal amounts keep their order. */
  predicate AmountDesc(a: CategorySummary, b: CategorySummary) {
    a.totalAmount >= b.totalAmount
  }

  lemma AmountDescPreorder()
    ensures TotalPreorder(AmountDesc)
  {
  }

  function PercentSum(s: seq<CategorySummary>): real
    decreases |s|
  {
    if s == [] then 0.0 else PercentSum(s[..|s| - 1]) + s[|s| - 1].percentage
  }

  /** Percentages that are shares of one total add up to the share of the sum. */
  lemma {:induction false} PercentSumOfShares(s: seq<CategorySummary>, total: int)
    requires forall i :: 0 <= i < |s| ==> s[i].percentage == Share(s[i].totalAmount, total)
    ensures PercentSum(s) == Share(Sum(s, SummaryAmount), total)
    decreases |s|
  {
    if s != [] {
      PercentSumOfShares(s[..|s| - 1], total);
      ShareAdditive(Sum(s[..|s| - 1], SummaryAmount), s[|s| - 1].totalAmount, total);
    }
  }

  lemma {:induction false} SummariesSums(groups: seq<CategoryTotal>, total: int)
    ensures Sum(Summaries(groups, total), SummaryAmount) == Sum(groups, TotalAmountOf)
    ensures Sum(Summaries(groups, total), SummaryCount) == Sum(groups, CountOf)
    decreases |groups|
  {
    if groups != [] {
      var n := |groups| - 1;
      assert Summaries(groups, total)[..n] == Summaries(groups[..n], total);
      SummariesSums(groups[..n], total);
    }
  }

  /** Each summary carries its group's category, amount and count, and the
      amount's share of the total. */
  lemma SummariesEntries(groups: seq<CategoryTotal>, total: int)
    ensures var cats := Summaries(groups, total);
            forall i :: 0 <= i < |cats| ==>
              && cats[i].category == groups[i].category
              && cats[i].totalAmount == groups[i].totalAmount
              && cats[i].count == groups[i].count
              && cats[i].percentage == Share(cats[i].totalAmount, total)
  {
  }

  /** The percentages of shares of a positive total that the amounts add up
      to sum to 100; with a total that is not positive they are all 0. */
  lemma PercentagesOfTotal(s: seq<CategorySummary>, total: int)
    requires forall i :: 0 <= i < |s| ==> s[i].percentage == Share(s[i].totalAmount, total)
    requires Sum(s, SummaryAmount) == total
    ensures total > 0 ==> PercentSum(s) == 100.0
    ensures total <= 0 ==> forall i :: 0 <= i < |s| ==> s[i].percentage == 0.0
  {
    PercentSumOfShares(s, total);
    if total > 0 {
      ShareOfTotal(total);
    }
  }

  /** The category view of a set of rows, before sorting: counts add up to
      the number of rows, amounts to the total, every count is positive,
      every percentage is the category's share of the total (so 0 when the
      total is not positive), the percentages add up to 100 otherwise, and
      no category appears twice. */
  lemma CategoryViewProperties(q: seq<Expense>)
    ensures var total := Sum(q, AmountOf);
            var cats := Summaries(GroupByCategory(q), total);
            && Sum(cats, SummaryCount) == |q|
            && Sum(cats, SummaryAmount) == total
            && (forall i :: 0 <= i < |cats| ==> cats[i].count >= 1 && cats[i].percentage == Share(cats[i].totalAmount, total))
            && (total <= 0 ==> forall i :: 0 <= i < |cats| ==> cats[i].percentage == 0.0)
            && (total > 0 ==> PercentSum(cats) == 100.0)
            && (forall i, j :: 0 <= i < j < |cats| ==> cats[i].category != cats[j].category)
  {
    var total := Sum(q, AmountOf);
    var g := GroupByCategory(q);
    var cats := Summaries(g, total);
    GroupByCategorySums(q);
    GroupByCategoryEntries(q);
    GroupByCategoryKeys(q);
    SummariesSums(g, total);
    SummariesEntries(g, total);
    PercentagesOfTotal(cats, total);
  }

  /** The same view sorted by amount: it keeps every property and is in
      descending order of amount. */
  lemma SortedCategoryViewProperties(q: seq<Expense>)
    ensures var total := Sum(q, AmountOf);
            var cats := SortBy(Summaries(GroupByCategory(q), total), AmountDesc);
            && SortedBy(cats, AmountDesc)
            && Sum(cats, SummaryCount) == |q|
            && Sum(cats, SummaryAmount) == total
            && (forall i :: 0 <= i < |cats| ==> cats[i].count >= 1 && cats[i].percentage == Share(cats[i].totalAmount, total))
            && (total <= 0 ==> forall i :: 0 <= i < |cats| ==> cats[i].percentage == 0.0)
            && (total > 0 ==> PercentSum(cats) == 100.0)
  {
    var total := Sum(q, AmountOf);
    var unsorted := Summaries(GroupByCategory(q), total);
    var cats := SortBy(unsorted, AmountDesc);
    CategoryViewProperties(q);
    SortBySorted(unsorted, AmountDesc);
    SortBySum(unsorted, AmountDesc, SummaryCount);
    SortBySum(unsorted, AmountDesc, SummaryAmount);
    forall i | 0 <= i < |cats|
      ensures cats[i].count >= 1 && cats[i].percentage == Share(cats[i].totalAmount, total)
    {
      SortByMembers(unsorted, AmountDesc, cats[i]);
    }
    PercentagesOfTotal(cats, total);
  }

  /** One entry of the `category_data` dict. */
  datatype Tally = Tally(amount: int, count: int)

  /** `category_data` after scanning the rows p: the categories in order of
      first appearance, each with its summed amount and its count. */
  ghost predicate TallyScanned(p: seq<Expense>, order: seq<string>, data: map<string, Tally>) {
    && order == Keys(p, CategoryOf)
    && (forall k :: k in data <==> k in order)
    && (forall k <- order :: data[k] == Tally(SumWhere(p, CategoryOf, k, AmountOf), CountWhere(p, CategoryOf, k)))
  }

  /** One turn of the `category_data` loop keeps the dict in step with the
      rows scanned. */
  lemma TallyScannedStep(p: seq<Expense>, e: Expense, order: seq<string>, data: map<string, Tally>,
                         order': seq<string>, data': map<string, Tally>)
    requires TallyScanned(p, order, data)
    requires order' == if e.category in data then order else order + [e.category]
    requires var t := if e.category in data then data[e.category] else Tally(0, 0);
             data' == data[e.category := Tally(t.amount + e.amount, t.count + 1)]
    ensures TallyScanned(p + [e], order', data')
  {
    var c := e.category;
    GroupStep(p, e, CategoryOf, AmountOf, c);
    GroupStep(p, e, CategoryOf, One, c);
    if c !in data {
      SumWhereAbsent(p, CategoryOf, c, AmountOf);
      SumWhereAbsent(p, CategoryOf, c, One);
    }
    forall k <- order'
      ensures data'[k] == Tally(SumWhere(p + [e], CategoryOf, k, AmountOf), CountWhere(p + [e], CategoryOf, k))
    {
      if k != c {
        assert k in order;
        GroupStep(p, e, CategoryOf, AmountOf, k);
        GroupStep(p, e, CategoryOf, One, k);
      }
    }
  }

  /** The body of the `category_data` loop: create the row's entry on first
      sight, then add its amount and one to it. */
  method AddToCategory(ghost p: seq<Expense>, e: Expense, order: seq<string>, data: map<string, Tally>)
      returns (order': seq<string>, data': map<string, Tally>)
    requires TallyScanned(p, order, data)
    ensures TallyScanned(p + [e], order', data')
  {
    order', data' := order, data;
    if e.category !in data' {
      data' := data'[e.category := Tally(0, 0)];
      order' := order' + [e.category];
    }
    data' := data'[e.category := Tally(data'[e.category].amount + e.amount, data'[e.category].count + 1)];
    TallyScannedStep(p, e, order, data, order', data');
  }

  /** The `category_data` loop: scan the rows, adding each amount and one to
      its category's entry, creating entries in order of first appearance;
      then read the entries back in dict order. */
  method CollectCategoryData(expenses: seq<Expense>) returns (groups: seq<CategoryTotal>)
    ensures groups == GroupByCategory(expenses)
  {
    var data: map<string, Tally> := map[];
    var order: seq<string> := [];
    var i := 0;
    while i < |expenses|
      invariant 0 <= i <= |expenses|
      invariant TallyScanned(expenses[..i], order, data)
    {
      assert expenses[..i + 1] == expenses[..i] + [expenses[i]];
      order, data := AddToCategory(expenses[..i], expenses[i], order, data);
      i := i + 1;
    }
    assert expenses[..i] == expenses;
    groups := [];
    var j := 0;
    while j < |order|
      invariant 0 <= j <= |order|
      invariant groups == TallyCategories(order[..j], expenses)
    {
      assert order[..j + 1][..j] == order[..j];
      groups := groups + [CategoryTotal(order[j], data[order[j]].amount, data[order[j]].count)];
      j := j + 1;
    }
    assert order[..j] == order;
  }

  /** The loop appending one `CategorySummary` per group. */
  method Summarize(groups: seq<CategoryTotal>, total: int) returns (r: seq<CategorySummary>)
    ensures r == Summaries(groups, total)
  {
    r := [];
    var j := 0;
    while j < |groups|
      invariant 0 <= j <= |groups|
      invariant |r| == j
      invariant forall i :: 0 <= i < j ==> r[i] == SummaryOf(groups[i], total)
    {
      r := r + [SummaryOf(groups[j], total)];
      j := j + 1;
    }
  }

  /** The earliest date among the rows (`min(expense.date for ...)`). */
  function Earliest(q: seq<Expense>): (t: Instant)
    requires q != []
    ensures exists e <- q :: e.date == t
    ensures forall e <- q :: t <= e.date
    decreases |q|
  {
    if |q| == 1 then q[0].date
    else
      var rest := Earliest(q[1..]);
      assert forall e <- q :: e == q[0] || e in q[1..];
      if q[0].date <= rest then q[0].date else rest
  }

  /** The latest date among the rows (`max(expense.date for ...)`). */
  function Latest(q: seq<Expense>): (t: Instant)
    requires q != []
    ensures exists e <- q :: e.date == t
    ensures forall e <- q :: e.date <= t
    decreases |q|
  {
    if |q| == 1 then q[0].date
    else
      var rest := Latest(q[1..]);
      assert forall e <- q :: e == q[0] || e in q[1..];
      if q[0].date >= rest then q[0].date else rest
  }

  /** `datetime.min` and `datetime.max` (9999-12-31T23:59:59.999999). */
  const MinInstant: Instant := 0
  const MaxInstant: Instant := 3_652_059 * MicrosPerDay - 1

  lemma MaxInstantIsLastMicrosecond(n: int)
    requires n == Ordinal(Date(9999, 12, 31))
    ensures n == 3_652_059
    ensures At(Date(9999, 12, 31), 23, 59, 59, 999_999) == MaxInstant
  {
  }

  datatype ExpenseSummary = ExpenseSummary(
    totalAmount: int,
    totalCount: nat,
    averageAmount: real,
    categories: seq<CategorySummary>,
    periodStart: Instant,
    periodEnd: Instant)

  /** `get_expense_summary`: totals, average and the sorted category view of
      the rows in the optional period; the period shown is the one supplied,
      else the span of the rows' dates, else `datetime.min`/`datetime.max`. */
  method GetExpenseSummary(rows: seq<Expense>, owner: UserId, start: Option<Instant>, end: Option<Instant>)
    returns (s: ExpenseSummary)
    ensures var q := ListInPeriod(rows, owner, start, end);
            var total := Sum(q, AmountOf);
            && s.totalAmount == total
            && s.totalCount == |q|
            && s.averageAmount == (if |q| > 0 then total as real / |q| as real else 0.0)
            && s.categories == SortBy(Summaries(GroupByCategory(q), total), AmountDesc)
            && s.periodStart == (if start.Some? then start.value else if q == [] then MinInstant else Earliest(q))
            && s.periodEnd == (if end.Some? then end.value else if q == [] then MaxInstant else Latest(q))
  {
    var q := ListInPeriod(rows, owner, start, end);
    if q == [] {
      s := ExpenseSummary(0, 0, 0.0, [],
                          if start.Some? then start.value else MinInstant,
                          if end.Some? then end.value else MaxInstant);
      return;
    }
    var total := Sum(q, AmountOf);
    var count := |q|;
    var average := total as real / count as real;
    var groups := CollectCategoryData(q);
    var categories := Summarize(groups, total);
    categories := SortBy(categories, AmountDesc);
    s := ExpenseSummary(total, count, average, categories,
                        if start.Some? then start.value else Earliest(q),
                        if end.Some? then end.value else Latest(q));
  }

  /** The summary's categories account for every row of the period and its
      whole total, in descending order of amount, with the percentages of
      `CategoryViewProperties`; with no bounds, the period shown spans the
      rows' dates. */
  lemma ExpenseSummaryConsistent(rows: seq<Expense>, owner: UserId, start: Option<Instant>, end: Option<Instant>)
    ensures var q := ListInPeriod(rows, owner, start, end);
            var total := Sum(q, AmountOf);
            var cats := SortBy(Summaries(GroupByCategory(q), total), AmountDesc);
            && SortedBy(cats, AmountDesc)
            && Sum(cats, SummaryCount) == |q|
            && Sum(cats, SummaryAmount) == total
            && (total > 0 ==> PercentSum(cats) == 100.0)
            && (q != [] && start.None? ==> forall e <- q :: Earliest(q) <= e.date)
            && (q != [] && end.None? ==> forall e <- q :: e.date <= Latest(q))
  {
    SortedCategoryViewProperties(ListInPeriod(rows, owner, start, end));
  }

  /** `get_categories_summary`: the owner's category totals with shares of
      their sum, largest first. */
  method GetCategoriesSummary(rows: seq<Expense>, owner: UserId) returns (r: seq<CategorySummary>)
    ensures var groups := CategoryTotals(rows, owner);
            r == SortBy(Summaries(groups, Sum(groups, TotalAmountOf)), AmountDesc)
  {
    var categories := CategoryTotals(rows, owner);
    var total := Sum(categories, TotalAmountOf);
    r := Summarize(categories, total);
    r := SortBy(r, AmountDesc);
  }

  /** The categories summary covers all the owner's rows: the sum of the
      group totals is the total of the owner's amounts, so it has the
      properties of the sorted category view. */
  lemma CategoriesSummaryIsView(rows: seq<Expense>, owner: UserId)
    ensures var groups := CategoryTotals(rows, owner);
            var mine := Filter(rows, OwnerIs(owner));
            && Sum(groups, TotalAmountOf) == Sum(mine, AmountOf)
            && SortBy(Summaries(groups, Sum(groups, TotalAmountOf)), AmountDesc)
               == SortBy(Summaries(GroupByCategory(mine), Sum(mine, AmountOf)), AmountDesc)
  {
    GroupByCategorySums(Filter(rows, OwnerIs(owner)));
  }

  datatype MonthlyExpense = MonthlyExpense(year: int, month: int, totalAmount: int, count: nat, categories: seq<CategorySummary>)

  /** `get_monthly_expenses`: the month's total, count and category view (not
      sorted: dict order, the order in which categories first appear). */
  method GetMonthlyExpenses(rows: seq<Expense>, owner: UserId, year: int, month: int) returns (r: MonthlyExpense)
    ensures var q := MonthlyExpenses(rows, owner, year, month);
            var total := Sum(q, AmountOf);
            r == MonthlyExpense(year, month, total, |q|, Summaries(GroupByCategory(q), total))
  {
    var q := MonthlyExpenses(rows, owner, year, month);
    if q == [] {
      r := MonthlyExpense(year, month, 0, 0, []);
      return;
    }
    var total := Sum(q, AmountOf);
    var groups := CollectCategoryData(q);
    var categories := Summarize(groups, total);
    r := MonthlyExpense(year, month, total, |q|, categories);
  }

  // ---------------------------------------------------------------- export

  const Header: seq<string> := ["ID", "Amount", "Currency", "Category", "Subcategory", "Merchant",
                                "Description", "Date", "Payment Method", "Is Recurring", "Tags", "Created At"]

  /** `value or ''` */
  function OrEmpty(v: Option<string>): string {
    if v.Some? then v.value else ""
  }

  /** `str(b)` of a bool. */
  function BoolText(b: bool): string {
    if b then "True" else "False"
  }

  /** An amount of cents as a decimal with two fraction digits. */
  function AmountText(cents: int): (r: string)
    ensures |r| >= 4
  {
    var a := if cents < 0 then -cents else cents;
    (if cents < 0 then "-" else "") + Digits(a / 100) + "." + Decimal(a % 100, 2)
  }

  /** r is a minus sign exactly for a negative amount, then the whole units,
      a point and exactly two digits of cents, reading back as the amount. */
  predicate AmountReadsAs(r: string, cents: int) {
    var s := if cents < 0 then 1 else 0;
    && |r| >= s + 4
    && (r[0] == '-' <==> cents < 0)
    && r[|r| - 3] == '.'
    && AllDigits(r[s..|r| - 3]) && AllDigits(r[|r| - 2..])
    && ParseDigits(r[s..|r| - 3]) * 100 + ParseDigits(r[|r| - 2..]) == (if cents < 0 then -cents else cents)
  }

  /** The amount text reads back as the amount. */
  lemma AmountTextReadsBack(cents: int)
    ensures AmountReadsAs(AmountText(cents), cents)
  {
    var a := if cents < 0 then -cents else cents;
    assert a == a / 100 * 100 + a % 100;
    AmountFromParts(if cents < 0 then "-" else "", a / 100, a % 100, cents);
  }

  /** Whole units and cents written out after the sign read back as the
      amount. */
  lemma AmountFromParts(sign: string, w: nat, f: nat, cents: int)
    requires sign == if cents < 0 then "-" else ""
    requires f < 100 && w * 100 + f == (if cents < 0 then -cents else cents)
    ensures AmountReadsAs(sign + Digits(w) + "." + Decimal(f, 2), cents)
  {
    var whole, frac := Digits(w), Decimal(f, 2);
    assert AllDigits(whole) && |frac| == 2 && AllDigits(frac) && ParseDigits(whole) == w && ParseDigits(frac) == f by {
      assert Pow10(2) == 100;
      DecimalField(f, 2);
      DigitsRoundTrip(w);
    }
    AmountLayout(sign, whole, frac, cents);
  }

  /** A sign, digits, a point and two digits have the layout of
      `AmountReadsAs`. */
  lemma AmountLayout(sign: string, whole: string, frac: string, cents: int)
    requires sign == if cents < 0 then "-" else ""
    requires |whole| >= 1 && AllDigits(whole) && |frac| == 2 && AllDigits(frac)
    requires ParseDigits(whole) * 100 + ParseDigits(frac) == if cents < 0 then -cents else cents
    ensures AmountReadsAs(sign + whole + "." + frac, cents)
  {
    var r := sign + whole + "." + frac;
    assert r[|sign|..|r| - 3] == whole;
    assert r[|r| - 2..] == frac;
    assert r[0] == if cents < 0 then '-' else whole[0];
  }

  /** The twelve columns one expense contributes to the CSV export. */
  function CsvRow(e: Expense): (r: seq<string>)
    ensures |r| == |Header| == 12
  {
    CsvColumns(e, AmountText(e.amount), IsoFormat(e.date), Join(TagCodec.DecodeStored(e.tags), ", "), IsoFormat(e.createdAt))
  }

  /** The twelve columns, given the already formatted amount, dates and tags. */
  function CsvColumns(e: Expense, amount: string, date: string, tags: string, created: string): (r: seq<string>)
    ensures |r| == 12
    ensures r[4] == OrEmpty(e.subcategory) && r[5] == OrEmpty(e.merchant)
    ensures r[6] == OrEmpty(e.description) && r[8] == OrEmpty(e.paymentMethod)
    ensures r[10] == tags
  {
    [Digits(e.id), amount, e.currency, e.category]
    + [OrEmpty(e.subcategory), OrEmpty(e.merchant), OrEmpty(e.description), date]
    + [OrEmpty(e.paymentMethod), BoolText(e.isRecurring), tags, created]
  }

  /** Each column sits under its header name: absent optional fields are
      empty and the tags column lists the tags shown in responses, joined by
      ", ". */
  lemma CsvRowColumns(e: Expense)
    ensures var r := CsvRow(e);
            && (e.subcategory.None? ==> r[4] == "")
            && (e.merchant.None? ==> r[5] == "")
            && (e.description.None? ==> r[6] == "")
            && (e.paymentMethod.None? ==> r[8] == "")
            && r[10] == Join(ToResponse(e).tags, ", ")
            && (e.tags.None? ==> r[10] == "")
  {
  }

  /** The tags written at creation come back in the export's tag column. */
  lemma CsvRowTagsOfCreated(id: nat, owner: UserId, data: ExpenseCreate, now: Instant)
    ensures CsvRow(NewExpense(id, owner, data, now))[10] == Join(if data.tags.None? then [] else data.tags.value, ", ")
  {
  }

  /** Characters that make `csv.writer` (QUOTE_MINIMAL) quote a field. */
  predicate Special(c: char) {
    c == ',' || c == '"' || c == '\r' || c == '\n'
  }

  predicate NeedsQuotes(f: string) {
    exists i :: 0 <= i < |f| && Special(f[i])
  }

  /** Every quote character doubled. */
  function DoubleQuotes(f: string): string
    decreases |f|
  {
    if f == [] then "" else (if f[0] == '"' then "\"\"" else [f[0]]) + DoubleQuotes(f[1..])
  }

  /** A field as `csv.writer` writes it. */
  function CsvField(f: string): string {
    if NeedsQuotes(f) then "\"" + DoubleQuotes(f) + "\"" else f
  }

  function CsvFields(fields: seq<string>): seq<string> {
    seq(|fields|, i requires 0 <= i < |fields| => CsvField(fields[i]))
  }

  /** `writer.writerow(fields)`: the fields separated by commas, ended by CRLF. */
  function CsvLine(fields: seq<string>): string {
    Join(CsvFields(fields), ",") + "\r\n"
  }

  /** The document: the header line, then one line per expense. */
  function CsvDocument(es: seq<Expense>): string
    decreases |es|
  {
    if es == [] then CsvLine(Header) else CsvDocument(es[..|es| - 1]) + CsvLine(CsvRow(es[|es| - 1]))
  }

  /** One more row adds its line at the end of the document. */
  lemma CsvDocumentStep(es: seq<Expense>, i: nat)
    requires i < |es|
    ensures CsvDocument(es[..i + 1]) == CsvDocument(es[..i]) + CsvLine(CsvRow(es[i]))
  {
    assert es[..i + 1][..i] == es[..i];
  }

  datatype Export = CsvExport(content: string, count: nat) | JsonExport(rows: seq<Expense>)

  /** The CSV branch of `export_expenses`: the header row, then a row per
      expense written to the buffer in turn. */
  method WriteCsv(es: seq<Expense>) returns (output: string)
    ensures output == CsvDocument(es)
  {
    output := CsvLine(Header);
    var i := 0;
    while i < |es|
      invariant 0 <= i <= |es|
      invariant output == CsvDocument(es[..i])
    {
      CsvDocumentStep(es, i);
      output := output + CsvLine(CsvRow(es[i]));
      i := i + 1;
    }
    assert es[..i] == es;
  }

  /** `export_expenses`: CSV when the lower-cased format is "csv", the rows
      themselves otherwise; either way the owner's rows of the period,
      newest first. */
  method ExportExpenses(rows: seq<Expense>, owner: UserId, format: string, start: Option<Instant>, end: Option<Instant>)
    returns (r: Export)
    ensures var es := ListForExport(rows, owner, start, end);
            r == if Lower(format) == "csv" then CsvExport(CsvDocument(es), |es|) else JsonExport(es)
  {
    var es := ListForExport(rows, owner, start, end);
    if Lower(format) == "csv" {
      var content := WriteCsv(es);
      r := CsvExport(content, |es|);
    } else {
      r := JsonExport(es);
    }
  }

  // ------------------------------------------------------------- mutations

  /** `update_expense` of the service: 404 (None) unless the row exists and
      belongs to the owner; otherwise the supplied fields are applied. */
  method UpdateExpense(ledger: Ledger, owner: UserId, id: nat, updates: seq<FieldUpdate>) returns (r: Option<Expense>)
    requires ledger.Valid()
    modifies ledger
    ensures ledger.Valid()
    ensures r.None? <==> old(ledger.GetForUser(id, owner)).None?
    ensures ledger.nextId == old(ledger.nextId)
    ensures r.None? ==> ledger.rows == old(ledger.rows)
    ensures r.Some? ==> var i := FindRow(old(ledger.rows), id, owner).value;
                        ledger.rows == old(ledger.rows)[i := r.value]
    ensures r.Some? ==> r.value == ApplyAll(old(ledger.GetForUser(id, owner)).value, updates)
                        && r.value.id == id && r.value.owner == owner
                        && SameExcept(r.value, old(ledger.GetForUser(id, owner)).value, FieldsOf(updates))
  {
    var found := FindRow(ledger.rows, id, owner);
    if found.None? {
      return None;
    }
    ApplyAllUntouched(ledger.rows[found.value], updates);
    var e := ledger.Update(found.value, updates);
    r := Some(e);
  }

  /** `delete_expense` of the service: 404 (None) unless the row exists and
      belongs to the owner; otherwise that row leaves the table. */
  method DeleteExpense(ledger: Ledger, owner: UserId, id: nat) returns (r: Option<Expense>)
    requires ledger.Valid()
    modifies ledger
    ensures ledger.Valid()
    ensures r == old(ledger.GetForUser(id, owner))
    ensures r.None? ==> ledger.rows == old(ledger.rows)
    ensures ledger.nextId == old(ledger.nextId)
    ensures r.Some? ==> var i := FindRow(old(ledger.rows), id, owner).value;
                        ledger.rows == old(ledger.rows)[..i] + old(ledger.rows)[i + 1..]
    ensures r.Some? ==> r.value !in ledger.rows && |ledger.rows| == |old(ledger.rows)| - 1
  {
    var found := FindRow(ledger.rows, id, owner);
    if found.None? {
      return None;
    }
    var i := found.value;
    r := Some(ledger.rows[i]);
    ghost var before := ledger.rows;
    ledger.Delete(i);
    forall k | 0 <= k < |ledger.rows|
      ensures ledger.rows[k] != r.value
    {
      if k < i {
        assert ledger.rows[k] == before[k];
      } else {
        assert ledger.rows[k] == before[k + 1];
      }
    }
  }
}
