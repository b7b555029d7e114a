# Expense ledger: queries, analytics, rate limiting and the service registry

This project is a Dafny model of the computational core of a personal-finance
backend. It proves properties of that model. The model covers four parts.

- **The expense repository.** These are the queries the backend runs on the
  expenses table. The table is an in-memory sequence of rows, and each query
  is a selection, an ordering, a grouping or a sum over it:
  - the filtered listing, with its optional date, category, amount and
    text-search conditions, paging and a total count;
  - the period listings and the export listing;
  - the recurring rows, the rows since a date and the largest transactions;
  - the per-category totals, the per-(year, month, category) totals and the
    sum over a period.

  Creating, updating, deleting and attaching a receipt to a row are methods of
  a `Ledger` class that holds the table. Tags are stored as JSON text. The
  encoder and decoder of that text are modelled too (module `TagCodec`), and
  their round trip is proved.
- **The expense service.** This covers:
  - responses with decoded tags and the page count of a listing;
  - the expense summary, the categories summary and the monthly summary, all
    built by scanning rows into a dictionary;
  - the CSV export;
  - the five dashboard views: this month against the last, the category
    breakdown of a period, the per-month category trend, the daily, weekly or
    monthly spend trend, and the largest recent transactions.

  The clock reading `datetime.now()` is a parameter `now`. The calendar
  arithmetic of Python's `datetime` and `calendar` modules is modelled in
  module `Calendar` and proved:
  - ordinals, `monthrange` and month rollover;
  - ISO 8601 week dates (section 4.1.4 of ISO 8601:2004, "week dates": weeks
    start on Monday, numbered in the ISO week-numbering year), with
    `isocalendar` and `fromisocalendar`;
  - the `strftime` and `isoformat` labels.
- **The rate limiter.** This covers the sliding-window log of
  `RateLimiter.is_allowed` over a dictionary of timestamp lists, and the choice
  of the key a call is counted under (`resolve_bucket`, `build_key`). The
  current time is a parameter `now`.
- **The service registry** of `ServiceManager`. It is a map from names to
  services, with register, lookup, unregister, list and shutdown.

Units:
- Amounts are integer cents and percentages are `real`.
- An instant is a `nat` count of microseconds since 0001-01-01T00:00:00,
  Python's `datetime.min`.
- Every Python `sort`, `sorted` or `ORDER BY` is the stable insertion sort
  `Sorting.SortBy` over one comparator. Its results are proved sorted, a
  rearrangement of the input with the same sums and members, and without
  duplicates when the input has none.
- A Python dictionary filled in a loop is a `map` together with the `seq` of
  its keys in insertion order. Each such loop is a method. The method is
  proved equal to a specification function: grouping (`Grouping.Keys`,
  `SumWhere`, `CountWhere`) or a fold over the rows.

Files:

| file | contents |
|---|---|
| options.dfy, sequences.dfy, sorting.dfy, grouping.dfy | `Option`; filters, windows and sums over sequences; the stable sort; grouping by a key |
| text.dfy, calendar.dfy | lower-casing, substring search, decimal digits, string order; Python's calendar arithmetic |
| tag_codec.dfy | the JSON text of a tag list: encoder, decoder, round trip |
| expense_repository.dfy | the rows, the queries, the filters, the updates and the `Ledger` class |
| expense_service.dfy | responses, paging, summaries, CSV export, service-level update and delete |
| expense_dashboard.dfy | the five dashboard computations |
| rate_limit.dfy | the `RateLimiter` class, a replay of runs of calls, bucket and key selection |
| service_manager.dfy | the `ServiceManager` class and the registry checks of the project's own test |

## Model

| member | source | states |
|---|---|---|
| ExpenseRepository.WhenNarrows | backend/app/repositories/expense_repository.py:271-287 | Adding one optional clause to the query gives the rows of the conjunction: the clause applies only when its argument is supplied. |
| ExpenseRepository.FilteredQuerySelects | backend/app/repositories/expense_repository.py:258-289 | The chain of clauses selects, in table order, exactly the rows that satisfy one condition. That condition is: the owner matches; the date is at or after the start and at or before the end, each only when given; the category is equal, only when non-empty; the amount is at least the minimum and at most the maximum, whenever given, 0 included; the search fragment matches, only when non-empty. |
| ExpenseRepository.FilteredQueryMember | backend/app/repositories/expense_repository.py:269-287 | A row is returned if and only if it is in the table and meets every supplied condition, so it always belongs to the requested owner. |
| ExpenseRepository.NoFiltersSelectsOwner | backend/app/repositories/expense_repository.py:269 | With no optional argument, the query is every row of the owner. |
| Text.Lower | backend/app/repositories/expense_repository.py:282-287 | Case-insensitive matching lower-cases both sides. The result has the same length, each ASCII capital is replaced by its small letter and every other character is unchanged. |
| Text.ContainsIff | backend/app/repositories/expense_repository.py:282-287 | The `%fragment%` pattern matches if and only if some contiguous slice of the text equals the fragment. |
| Text.EmptyFragmentOccurs | backend/app/repositories/expense_repository.py:281-282 | The empty fragment occurs in every string, which is why the search clause is skipped when the fragment is empty. |
| ExpenseRepository.OrderingsArePreorders | backend/app/repositories/expense_repository.py:50 | Newest-first and largest-first are total preorders, so the stable sort by them is sorted. |
| ExpenseRepository.ListExpensesPage | backend/app/repositories/expense_repository.py:48-55 | The total counts every filtered row whatever the page. The page is the newest-first filtered result sliced from `(page - 1) * limit`. It holds at most `limit` rows, exactly `limit` when enough rows follow the offset, and none past the end. It is newest first. |
| ExpenseRepository.ListExpensesRowsMatch | backend/app/repositories/expense_repository.py:25-55 | Every row on a page is a row of the table that belongs to the owner and meets all the filters. |
| ExpenseRepository.PeriodListings | backend/app/repositories/expense_repository.py:116-137 | `list_in_period` holds exactly the owner's rows with start <= date <= end, each bound only when given. `list_for_export` holds the same rows, newest first. |
| ExpenseRepository.RecurringExpensesMember | backend/app/repositories/expense_repository.py:108-114 | Exactly the owner's recurring rows, newest first. |
| ExpenseRepository.ExpensesSinceMember | backend/app/repositories/expense_repository.py:233-238 | Exactly the owner's rows dated at or after the start. |
| ExpenseRepository.TopTransactionsProperties | backend/app/repositories/expense_repository.py:240-253 | The result has `limit` rows, or every row of the window when there are fewer, and holds no row more often than the window does (a sub-multiset of it). All of them are the owner's and dated at or after the start, in non-increasing amount order. No row of the window that is left out has a larger amount than any returned row. |
| ExpenseRepository.TopDominates | backend/app/repositories/expense_repository.py:247-253 | After `ORDER BY amount DESC LIMIT n`, no row of the window left out has a larger amount than any row kept. |
| ExpenseRepository.TallyCategories | backend/app/repositories/expense_repository.py:139-149 | One group row per given category, in the given order, each with that category. |
| ExpenseRepository.TallyCategoriesSums | backend/app/repositories/expense_repository.py:139-149 | The group totals and counts add up to the per-key sums over the categories. |
| ExpenseRepository.TallyCategoriesEntries | backend/app/repositories/expense_repository.py:141-147 | Group i holds the sum of the amounts and the number of rows of its category. |
| ExpenseRepository.GroupByCategoryKeys | backend/app/repositories/expense_repository.py:147 | `GROUP BY category` gives one group per distinct category: no category twice, a group for every category that occurs, and no group without rows. |
| ExpenseRepository.GroupByCategoryEntries | backend/app/repositories/expense_repository.py:141-147 | Each group carries SUM(amount) and COUNT(id) of exactly its category's rows, and the count is at least 1. |
| ExpenseRepository.GroupByCategorySums | backend/app/repositories/expense_repository.py:139-173 | The groups partition the rows: the totals add up to the total amount and the counts to the number of rows. |
| ExpenseRepository.InPeriodMember | backend/app/repositories/expense_repository.py:164-170 | The inclusive period holds exactly the owner's rows with start <= date <= end. |
| ExpenseRepository.SumInPeriodProperties | backend/app/repositories/expense_repository.py:188-206 | With no row in the inclusive period the sum is exactly 0, because the NULL sum becomes 0. Otherwise it is the total of the period's rows, which equals the total of the period's category groups. |
| ExpenseRepository.MonthlyExpensesAsRange | backend/app/repositories/expense_repository.py:175-186 | Matching the extracted year and month selects the same rows as the inclusive range from the month's first to its last microsecond. |
| ExpenseRepository.TallyMonths | backend/app/repositories/expense_repository.py:215-231 | One group row per (year, month, category) key, in key order, carrying that key. |
| ExpenseRepository.TallyMonthsSums | backend/app/repositories/expense_repository.py:215-231 | The (year, month, category) totals add up to the per-key sums. |
| ExpenseRepository.TallyMonthsEntries | backend/app/repositories/expense_repository.py:220 | Each (year, month, category) total is the sum over exactly its rows. |
| ExpenseRepository.InHalfOpenMember | backend/app/repositories/expense_repository.py:222-227 | The half-open range holds exactly the owner's rows with start <= date < end. The end is excluded. |
| ExpenseRepository.MonthlyCategoryTotalsProperties | backend/app/repositories/expense_repository.py:208-231 | Over the half-open range, every (year, month, category) occurs once. Each group's total is the sum of exactly its rows, and the groups add up to the total of the range. |
| ExpenseRepository.NewExpense | backend/app/repositories/expense_repository.py:57-72 | The inserted row stores the tags JSON-encoded, or nothing for an absent or empty list. Decoding them gives back the tags supplied. |
| ExpenseRepository.ApplyAllUntouched | backend/app/repositories/expense_repository.py:92-93 | The `setattr` loop leaves every field that is not in the payload unchanged, and never touches the id, the owner, the receipt or the creation time. |
| ExpenseRepository.ApplyAllSupplied | backend/app/repositories/expense_repository.py:85-93 | Each supplied field ends up holding its supplied value. Tags are in stored form: JSON, or nothing when empty. |
| ExpenseRepository.FindRow | backend/app/repositories/expense_repository.py:78-83 | `.first()` is the first row with this id and this owner. When there is none, no such row exists. |
| ExpenseRepository.Ledger.constructor | backend/app/repositories/expense_repository.py:19-20 | The ledger starts with an empty table. |
| ExpenseRepository.Ledger.GetForUser | backend/app/repositories/expense_repository.py:78-83 | Some row is returned if and only if a row with that id belongs to the owner, and the row returned is one. |
| ExpenseRepository.Ledger.Create | backend/app/repositories/expense_repository.py:57-76 | The new row, with a fresh id and its tags encoded, is appended. Ids stay distinct, and the row can then be found for its owner. |
| ExpenseRepository.Ledger.Update | backend/app/repositories/expense_repository.py:85-96 | Row i becomes the result of applying the updates in payload order. Nothing else changes and ids stay distinct. |
| ExpenseRepository.Ledger.Delete | backend/app/repositories/expense_repository.py:98-100 | Row i leaves the table, the others keep their order, and ids stay distinct. |
| ExpenseRepository.Ledger.SetReceiptUrl | backend/app/repositories/expense_repository.py:102-106 | Row i gets the receipt URL and nothing else changes. |
| TagCodec.Hex4RoundTrip | backend/app/repositories/expense_repository.py:58 | The four lower-case hex digits of a `\uXXXX` escape read back as the code unit written. |
| TagCodec.Escape | backend/app/repositories/expense_repository.py:58 | `json.dumps` with ASCII output escapes one character. `"` and `\` get a backslash, and so do the five short control escapes. Other printable ASCII is written as is. Everything else becomes one `\uXXXX` escape, or a surrogate pair of them above U+FFFF. |
| TagCodec.EscapeParses | backend/app/repositories/expense_repository.py:58 | Every escaped character reads back as itself, with the rest of the input untouched. |
| TagCodec.ParseEncodedString | backend/app/repositories/expense_repository.py:58 | A quoted, escaped tag reads back as the tag, with the following text left over. |
| TagCodec.ParseEncodedItems | backend/app/repositories/expense_repository.py:58 | A non-empty tag list written with `", "` separators reads back as the list. |
| TagCodec.DecodeEncode | backend/app/services/expenses.py:30 | `json.loads(json.dumps(tags))` gives the tags back, for every list of strings. |
| TagCodec.EncodeStored | backend/app/repositories/expense_repository.py:58 | The stored form is nothing exactly when the tag list is absent or empty, and the JSON text otherwise. |
| TagCodec.DecodeStored | backend/app/services/expenses.py:25-37 | The decoded tags are empty for an absent or empty column, and also when the text does not decode. Otherwise they are the decoded list. Decoding never fails. |
| TagCodec.DecodeStoredEncodeStored | backend/app/services/expenses.py:25-37 | Decoding the stored form of a tag list gives the list back, and an absent list reads back as empty. |
| TagCodec.DecodeStoredFallback | backend/app/services/expenses.py:31-32 | Text that is not a JSON array of strings reads back as no tags. |
| ExpenseService.ToResponse | backend/app/services/expenses.py:25-37 | The response keeps the row, and its tags are the stored column decoded with the empty-list fallback. |
| ExpenseService.CreatedTagsReadBack | backend/app/services/expenses.py:25-37 | The tags given at creation are the tags every response shows. |
| ExpenseService.UpdatedTagsReadBack | backend/app/services/expenses.py:118-142 | After an update that sets the tags, responses show the new tags. |
| ExpenseService.PagesIsCeiling | backend/app/services/expenses.py:77 | `(total + limit - 1) // limit` is the ceiling of total / limit: pages * limit reaches total, and falls short of total + limit. |
| ExpenseService.PagesExamples | backend/app/services/expenses.py:77 | 5 rows with limit 2 give 3 pages, 4 give 2, 0 rows give 0, and 1 row with limit 50 gives 1. |
| ExpenseService.Responses | backend/app/services/expenses.py:67 | One response per row, in row order. |
| ExpenseService.GetExpenses | backend/app/services/expenses.py:41-79 | The page meta counts every filtered row, and the page count is its ceiling division by the limit. The data is exactly the responses, tags decoded, of the page's window of the owner's rows that meet the filters, newest first; so it has at most `limit` entries. |
| ExpenseService.ShareAdditive | backend/app/services/expenses.py:220 | Shares of one total add up. |
| ExpenseService.ShareOfTotal | backend/app/services/expenses.py:220 | The whole of a positive total is 100 percent. |
| ExpenseService.AmountDescPreorder | backend/app/services/expenses.py:224 | Sorting by amount, descending, uses a total preorder. |
| ExpenseService.PercentSumOfShares | backend/app/services/expenses.py:214-221 | Percentages that are shares of one total add up to the share of their amounts' sum. |
| ExpenseService.SummariesSums | backend/app/services/expenses.py:214-221 | The summaries' amounts and counts add up to those of the groups. |
| ExpenseService.SummariesEntries | backend/app/services/expenses.py:214-221 | Each summary keeps its group's category, amount and count. Its percentage is the amount's share of the total, or 0 when the total is not positive. |
| ExpenseService.PercentagesOfTotal | backend/app/services/expenses.py:220 | When the amounts add up to a positive total, the percentages add up to 100. When the total is not positive, every percentage is 0. |
| ExpenseService.CategoryViewProperties | backend/app/services/expenses.py:200-221 | These hold before sorting: the counts add up to the number of rows and the amounts to the total; every count is at least 1; every percentage is its share, and 0 when the total is not positive; the percentages add up to 100 otherwise; no category appears twice. |
| ExpenseService.SortedCategoryViewProperties | backend/app/services/expenses.py:200-224 | After the sort by amount, descending, the view is sorted and keeps all the sums, counts and percentages. |
| ExpenseService.CollectCategoryData | backend/app/services/expenses.py:205-211 | The dict loop gives exactly the category groups of the rows: categories in order of first appearance, each with its summed amount and its count. |
| ExpenseService.AddToCategory | backend/app/services/expenses.py:206-211 | One turn of the dict loop, which creates a category with zero amount and count on first sight and then adds the row, keeps the dict equal to the category groups of the rows scanned so far. |
| ExpenseService.TallyScannedStep | backend/app/services/expenses.py:206-211 | Adding one row's amount and one to its category's entry, made on first sight, gives the groups of the scanned rows plus that row. |
| ExpenseService.Summarize | backend/app/services/expenses.py:214-221 | The loop appends one summary per group, in group order. |
| ExpenseService.Earliest | backend/app/services/expenses.py:231 | `min` of the rows' dates is a date of some row and at or before every row's date. |
| ExpenseService.Latest | backend/app/services/expenses.py:232 | `max` of the rows' dates is a date of some row and at or after every row's date. |
| ExpenseService.MaxInstantIsLastMicrosecond | backend/app/services/expenses.py:193-194 | `datetime.max` is 9999-12-31T23:59:59.999999, day 3652059. |
| ExpenseService.GetExpenseSummary | backend/app/services/expenses.py:171-239 | For the owner's rows of the optional period, the summary gives: the total and the count; the average, 0 with no rows; the category view sorted by amount, descending; the period shown, which is the bound given, else the span of the row dates, else `datetime.min`/`datetime.max` when there are no rows. |
| ExpenseService.ExpenseSummaryConsistent | backend/app/services/expenses.py:200-232 | The summary's categories account for every row and the whole total, descending by amount, and their percentages add up to 100 for a positive total. With no given bound, the rows lie within the period shown. |
| ExpenseService.GetCategoriesSummary | backend/app/services/expenses.py:242-266 | The owner's category groups with shares of their summed total, sorted by amount, descending. |
| ExpenseService.CategoriesSummaryIsView | backend/app/services/expenses.py:247-260 | The total of the groups is the total of all the owner's rows, so the summary is the sorted category view with all its properties. |
| ExpenseService.GetMonthlyExpenses | backend/app/services/expenses.py:269-322 | The month's rows give the total, the count and the unsorted category view, in order of first appearance. No rows give zeros and no categories. |
| ExpenseService.AmountTextReadsBack | backend/app/services/expenses.py:454 | The amount column is an optional `-` (present exactly for a negative amount), integer digits, a point and two fraction digits, and the digits read back as the amount in cents. |
| ExpenseService.CsvRow | backend/app/services/expenses.py:453-460 | Every data row has the same twelve columns as the header. |
| Calendar.IsoFormatReadsBack | backend/app/services/expenses.py:457-459 | `isoformat()` of an instant is its date label, then `T`, then a time that reads back as the instant's second of the day and microsecond. |
| Calendar.ClockTextReadsBack | backend/app/services/expenses.py:457-459 | The time part is `HH:MM:SS`, with `.ffffff` exactly when the microsecond is not zero, and its fields recombine into the second of the day and the microsecond. |
| ExpenseService.CsvRowColumns | backend/app/services/expenses.py:443-460 | An absent subcategory, merchant, description or payment method gives an empty column. The tags column is the tags every response shows, joined by `", "`, and it is empty when there are none. |
| ExpenseService.CsvRowTagsOfCreated | backend/app/services/expenses.py:443-460 | The tags given at creation come back in the export's tag column. |
| ExpenseService.WriteCsv | backend/app/services/expenses.py:436-462 | The loop writes the header line and then one line per expense, in order. |
| ExpenseService.CsvDocumentStep | backend/app/services/expenses.py:439-460 | Writing one more row appends exactly that row's line to the document written so far. |
| ExpenseService.ExportExpenses | backend/app/services/expenses.py:415-477 | The lower-cased format "csv" gives the CSV document and the row count. Any other format gives the rows themselves. Either way these are the owner's rows of the period, newest first. |
| ExpenseService.UpdateExpense | backend/app/services/expenses.py:118-142 | A row that is missing or belongs to someone else is "not found" and the table is unchanged. Otherwise the first row with that id and owner is replaced, in its place, by the payload applied to it. Every other row stays as it was, the id and owner are unchanged, and only the supplied fields differ. The next id is unchanged. |
| ExpenseService.DeleteExpense | backend/app/services/expenses.py:145-168 | The row found for the owner is returned and removed from its place. The other rows keep their contents and order. A missing row is "not found" and the table is unchanged. The next id is unchanged. |
| Calendar.DaysInMonth | backend/app/services/expenses.py:727 | `monthrange` gives 28 to 31 days, following the Gregorian leap-year rule. |
| Calendar.MonthWithinYear | backend/app/services/expenses.py:727 | Every month ends within its year. |
| Calendar.FromOrdinal | backend/app/services/expenses.py:915 | `date.fromordinal(n)` gives a valid date whose ordinal is n. |
| Calendar.YearWalk | backend/app/services/expenses.py:915 | Counting k days from January 1 of year y, across year boundaries, lands on a valid date, in year y or later, whose ordinal is k days later. |
| Calendar.FromOrdinalOfOrdinal | backend/app/services/expenses.py:915 | Dates and ordinals are in one-to-one correspondence. |
| Calendar.OrdinalInjective | backend/app/services/expenses.py:915 | Two valid dates with the same ordinal are the same date. |
| Calendar.DayOrdinal | backend/app/services/expenses.py:915 | An instant lies within the day of its ordinal. |
| Calendar.DateOf | backend/app/services/expenses.py:915 | `dt.date()` is a valid date. |
| Calendar.AtDate | backend/app/services/expenses.py:738-740 | `datetime(y, m, d, ...)` built from a valid date and time has that date. |
| Calendar.PrevMonth | backend/app/services/expenses.py:731-736 | The previous month is one month position, 12 * year + month, earlier. January rolls back to December of the year before. |
| Calendar.PrevNextInverse | backend/app/services/expenses.py:731-736 | Stepping one month back and then forward, in either order, returns to the start. |
| Calendar.InMonthIff | backend/app/services/expenses.py:724-728 | An instant lies in month (y, m) if and only if it is between the first microsecond of the month and 23:59:59.999999 of its last day, both inclusive. |
| Calendar.MonthEndMeetsNextStart | backend/app/services/expenses.py:728 | The microsecond after a month's end is the start of the next month, so consecutive months tile the time line. |
| Calendar.MonthStartMono | backend/app/services/expenses.py:845-855 | Month starts grow with the month's position. |
| Calendar.MonthStartIff | backend/app/services/expenses.py:845 | An instant is at or after the start of month (y, m) if and only if its own month is not earlier. |
| Calendar.Weekday | backend/app/services/expenses.py:923 | The weekday is 0 (Monday) to 6 (Sunday). |
| Calendar.MondayOf | backend/app/services/expenses.py:924 | The Monday of a day's ISO week is a Monday, at most six days before the day. |
| Calendar.MondayOfMonday | backend/app/services/expenses.py:924 | A Monday is its own week's Monday. |
| Calendar.IsoWeekRange | backend/app/services/expenses.py:923 | The ISO year is the year of the week's Thursday, and the ISO week number is between 1 and 53. |
| Calendar.FromIsoCalendarOfIsoWeek | backend/app/services/expenses.py:923-924 | `fromisocalendar(isocalendar(d) year, week, 1)` succeeds and is the Monday of d's week. |
| Calendar.IsoWeekOfThursday | backend/app/services/expenses.py:923-924 | When a Monday's Thursday falls in year y, week 1 of `fromisocalendar` counted from y's first Thursday, the Monday is day 1 of its week number in y. |
| Calendar.IsoYearOfThursday | backend/app/services/expenses.py:923 | The ISO year of a day is the calendar year of its week's Thursday (ISO 8601:2004 section 4.1.4). |
| Calendar.IsoWeekExample | backend/app/services/expenses.py:923-925 | 2024-12-30 is the Monday of ISO week 1 of 2025. |
| Calendar.WeekLabelExample | backend/app/services/expenses.py:925 | 2024-12-30 is labelled "2025-W01": the label uses the ISO year, not the calendar year. |
| Calendar.WeekLabelOfMonday | backend/app/services/expenses.py:924-925 | A day and the Monday of its week get the same ISO week label. |
| Text.Digits | backend/app/services/expenses.py:875 | The decimal digits of a number, at least one of them. |
| Text.DigitsRoundTrip | backend/app/services/expenses.py:875 | The digits read back as the number. |
| Text.PadZero | backend/app/services/expenses.py:875 | `:02d` left-pads with zeros up to the width and keeps the digits as the suffix. |
| Text.Decimal | backend/app/services/expenses.py:925 | A zero-padded number is all digits and at least as wide as asked. |
| Text.DecimalRoundTrip | backend/app/services/expenses.py:925 | A zero-padded number reads back as the number. |
| Text.StrLeTotal | backend/app/services/expenses.py:897 | Python's string order is total. |
| Text.StrLeTransitive | backend/app/services/expenses.py:897 | Python's string order is transitive. |
| Text.StrLeAntisymmetric | backend/app/services/expenses.py:897 | Python's string order is antisymmetric. |
| ExpenseDashboard.PercentageChangeInverse | backend/app/services/expenses.py:757-758 | With a positive previous month, the change recovers the current spend: current = previous + previous * change / 100. |
| ExpenseDashboard.DirectionOfChange | backend/app/services/expenses.py:757-768 | "increase" if and only if more was spent than a positive previous month, or anything was spent after a zero one. "decrease" if and only if less than a positive previous month. "same" in every other case, a zero change included. |
| ExpenseDashboard.PercentageChangeExamples | backend/app/services/expenses.py:757-768 | 50.00 after 0 is 100 with "increase". 150.00 after 200.00 is -25 with "decrease". Equal months give 0 with "same", and two empty months give 0. |
| ExpenseDashboard.MonthBounds | backend/app/services/expenses.py:724-740 | A month's bounds are its first microsecond and 23:59:59.999999 of its last day. |
| ExpenseDashboard.TotalSpend | backend/app/services/expenses.py:720-781 | The current and the previous calendar month's totals are the sums of the owner's rows of those months, with January's previous month in December of the year before. The change and the direction are computed from them. |
| ExpenseDashboard.BreakdownWindow | backend/app/services/expenses.py:789-803 | "last_30_days" is the 30 days up to now. "current_year" runs from midnight of January 1 to now. Any other period selects exactly the instants of the current calendar month. |
| ExpenseDashboard.CategoryBreakdown | backend/app/services/expenses.py:784-838 | The period's category groups with their shares of the groups' total, largest first. No groups give no items. |
| ExpenseDashboard.CategoryBreakdownIsView | backend/app/services/expenses.py:805-832 | The breakdown's total is the total of the period's rows, so the breakdown is the sorted category view of those rows. |
| ExpenseDashboard.TopStart | backend/app/services/expenses.py:977-998 | "weekly" starts 7 days back. "yearly" starts at midnight of the same day a year back. "monthly" and every other period start at midnight of the same day in the previous month, with January rolling back to December. |
| ExpenseDashboard.TopStartUndefinedOnMarch31 | backend/app/services/expenses.py:987 | On March 31 the monthly start does not exist, because February has no 31st. This is the case where `datetime` raises. |
| ExpenseDashboard.TopTransactionsDashboard | backend/app/services/expenses.py:1000-1005 | `limit` of the owner's rows since the start, or all of them when there are fewer, largest first, with no row repeated beyond its count in the window. No left-out row of the window is larger than a returned one. |
| ExpenseDashboard.MonthsBack | backend/app/services/expenses.py:848-855 | The month `months` before (y, m) has a month number 1 to 12, and its position is exactly `months` earlier. |
| ExpenseDashboard.MonthPositionUnique | backend/app/services/expenses.py:848-855 | A month is determined by its position 12 * year + month. |
| ExpenseDashboard.TrailingWindowStart | backend/app/services/expenses.py:848-855 | The `while start_month <= 0` loop lands on the month `months` months back, with the year borrowed once per wrap. |
| ExpenseDashboard.TrendWindow | backend/app/services/expenses.py:845-861 | The trend queries the half-open range from the first of the start month to the first of the current month. |
| ExpenseDashboard.TrendWindowMonths | backend/app/services/expenses.py:845-861 | Every reported month lies from the start month up to, but not including, the current month. |
| ExpenseDashboard.AssignProperties | backend/app/services/expenses.py:882 | `d[category] = amount` stores the amount under the category and keeps every other entry and every category already present. |
| ExpenseDashboard.MonthCatsSound | backend/app/services/expenses.py:874-882 | Every entry of a month's dict comes from an item of that month, with its category and amount. |
| ExpenseDashboard.MonthCatsComplete | backend/app/services/expenses.py:874-882 | Every item's category has an entry in its month's dict. |
| ExpenseDashboard.MonthRows | backend/app/services/expenses.py:888-894 | One point per entry of a month, with the entry's category and amount and its share of the month's total. |
| ExpenseDashboard.TrendLePreorder | backend/app/services/expenses.py:897 | The key (month, -amount) orders by a total preorder. |
| ExpenseDashboard.MonthsScannedStep | backend/app/services/expenses.py:874-882 | One turn of the first loop keeps the two dicts in step. Month keys stay in first-appearance order, each total is the month's sum, and each category dict is the month's categories. |
| ExpenseDashboard.ScanItem | backend/app/services/expenses.py:875-882 | A new month key gets a zero total and an empty dict. Then the amount is added to the month's total and stored under its category. |
| ExpenseDashboard.GroupMonths | backend/app/services/expenses.py:871-882 | After the first loop, the dicts hold, per month key in first-appearance order, the month's total and its category amounts. |
| ExpenseDashboard.AddItem | backend/app/services/expenses.py:874-882 | One turn of the first loop keeps the month dicts equal to the month totals and category dicts of the items scanned so far. |
| ExpenseDashboard.AppendMonth | backend/app/services/expenses.py:888-894 | The inner loop appends one point per category of the month, in dict order. |
| ExpenseDashboard.Trend | backend/app/services/expenses.py:870-897 | The two loops and the sort compute, for any month key, the specification `TrendData`. |
| ExpenseDashboard.CategoryTrend | backend/app/services/expenses.py:841-903 | The trend is `TrendData` of the monthly category totals of the window, keyed by `f"{year}-{month:02d}"`. No data gives no points. |
| ExpenseDashboard.TrendRowsSound | backend/app/services/expenses.py:884-894 | Each point's percentage is its amount's share of its own month's total, and its category and amount are an entry of that month. |
| ExpenseDashboard.TrendRowsComplete | backend/app/services/expenses.py:884-894 | Every entry of every month gets a point. |
| ExpenseDashboard.CategoryTrendSorted | backend/app/services/expenses.py:897 | The trend is ordered by month key, and within a month by amount, largest first. |
| ExpenseDashboard.CategoryTrendSound | backend/app/services/expenses.py:874-897 | Every point is the amount of an item of its month and category, with its share of that month's total. |
| ExpenseDashboard.CategoryTrendComplete | backend/app/services/expenses.py:874-897 | Every month and category of the data appears in the trend. |
| ExpenseDashboard.LookbackBounds | backend/app/services/expenses.py:919-929 | The weekly look-back is whole weeks, at least four of them, and the requested days rounded down to weeks when that is more. The monthly look-back is whole 30-day months, at least three, and likewise rounded down. |
| ExpenseDashboard.BucketKeyDay | backend/app/services/expenses.py:914-940 | A row's bucket is a day not after it. For "daily" it is its own day, for "weekly" the Monday of its ISO week, and for "monthly" the first of its month. |
| ExpenseDashboard.LabelOfBucket | backend/app/services/expenses.py:914-940 | All rows of one bucket get the same label, the bucket's, so overwriting the label per row never changes it. |
| ExpenseDashboard.Points | backend/app/services/expenses.py:955-963 | One point per bucket key, in key order, with the bucket's label, sum and count. |
| ExpenseDashboard.SpendKeys | backend/app/services/expenses.py:955 | `sorted(bucket_totals.keys())` gives only valid day ordinals. |
| ExpenseDashboard.ScanRow | backend/app/services/expenses.py:948-952 | The `defaultdict` creates the bucket on first use. Then the amount is added, the count goes up by one and the label is set. |
| ExpenseDashboard.BucketsScannedStep | backend/app/services/expenses.py:944-952 | One kept row keeps the dict equal to the buckets of the rows scanned so far: each bucket with its sum, its count and its label. |
| ExpenseDashboard.TalliedStep | backend/app/services/expenses.py:948-952 | Adding one row to its bucket, created on first use, gives the buckets of the scanned rows plus that row, for any bucket key and label function. |
| ExpenseDashboard.AddRow | backend/app/services/expenses.py:948-952 | The body of the loop for a kept row keeps the dict equal to the buckets of the rows scanned. |
| ExpenseDashboard.CollectBuckets | backend/app/services/expenses.py:944-952 | The loop skips rows dated before the start and buckets every other row. |
| ExpenseDashboard.BucketPoints | backend/app/services/expenses.py:944-963 | Collecting the buckets and emitting them in sorted key order gives exactly the specification points of the rows since the start. |
| ExpenseDashboard.EmitPoints | backend/app/services/expenses.py:955-963 | The output loop emits one point per sorted key, with that bucket's label, sum and count. |
| ExpenseDashboard.SpendTrend | backend/app/services/expenses.py:906-969 | The points are the buckets of the owner's rows since the look-back start, in ascending bucket order, at the granularity the period names: daily for "daily" and any unknown period. |
| ExpenseDashboard.SpendTrendBuckets | backend/app/services/expenses.py:944-963 | Bucket keys are strictly increasing, so chronological. Every row falls in one of them and no bucket is empty. Each point carries its bucket's sum and count (at least 1), and the label of every row in it. |
| ExpenseDashboard.SpendKeysIncreasing | backend/app/services/expenses.py:955 | The sorted bucket keys are strictly increasing. |
| ExpenseDashboard.SpendKeysCover | backend/app/services/expenses.py:944-955 | Every row's bucket is among the keys. |
| ExpenseDashboard.SpendKeysUsed | backend/app/services/expenses.py:944-955 | Every key is the bucket of some row and counts at least one row. |
| ExpenseDashboard.SumPoints | backend/app/services/expenses.py:954-963 | The point amounts and counts add up to the per-bucket sums. |
| ExpenseDashboard.SpendTrendTotals | backend/app/services/expenses.py:944-963 | The points partition the rows: the amounts add up to the rows' total and the counts to their number. |
| RateLimit.Admit | backend/app/decorators/rate_limit.py:22-31 | The call is allowed if and only if fewer than `limit` stored timestamps are still inside the window. The new list is exactly those timestamps, in order, followed by `now` when the call is allowed; so it holds at most `limit`, invents none and loses none still inside the window. |
| RateLimit.RateLimiter.constructor | backend/app/decorators/rate_limit.py:15-16 | The limiter starts with no key. |
| RateLimit.RateLimiter.IsAllowed | backend/app/decorators/rate_limit.py:19-31 | The answer and the key's new list are those of `Admit` on the key's old list, an absent key counting as empty. Every other key keeps its list. |
| RateLimit.ReplayPrefix | backend/app/decorators/rate_limit.py:19-31 | The answers to a prefix of a run of calls are a prefix of the answers. |
| RateLimit.ReplayAt | backend/app/decorators/rate_limit.py:19-31 | The answer to call i is `Admit` on the list left by the calls before it, and the earlier answers are those of the shorter run. |
| RateLimit.WindowNarrows | backend/app/decorators/rate_limit.py:24 | Pruning at an earlier instant drops nothing a later pruning would keep. |
| RateLimit.ReplayLog | backend/app/decorators/rate_limit.py:22-31 | Seen from any later instant, the stored list holds exactly the allowed calls still inside the window. Pruning only on access loses nothing when time does not go backwards. |
| RateLimit.SlidingWindow | backend/app/decorators/rate_limit.py:19-31 | Call i is allowed if and only if fewer than `limit` earlier allowed calls lie in the window ending at call i. |
| RateLimit.AllowedBound | backend/app/decorators/rate_limit.py:25-31 | After any allowed call, at most `limit` allowed calls, itself included, lie in the window ending at it. |
| RateLimit.ResolveBucket | backend/app/decorators/rate_limit.py:49-72 | For "user", the bucket is `user:` plus the id of `current_user` or `user`, else of a non-None `user_id` argument, else "global". For "ip" it is `ip:` plus a non-empty client host, else "global". Any other identifier, and arguments that do not bind, give "global". |
| RateLimit.BucketKinds | backend/app/decorators/rate_limit.py:57-72 | A bucket is "global", a user bucket or an IP bucket. A user bucket only comes from "user" and an IP bucket only from "ip", and the three kinds never coincide. |
| RateLimit.SplitKey | backend/app/decorators/rate_limit.py:76 | The part of a key before its first `:` contains no `:`. |
| RateLimit.BuildKeySplit | backend/app/decorators/rate_limit.py:74-76 | `<module>.<qualname>:<bucket>` splits back into the dotted name and the bucket. |
| RateLimit.KeysSeparateFunctions | backend/app/decorators/rate_limit.py:74-76 | Two keys are equal if and only if the dotted names and the buckets are. Different functions never share a counter. |
| ServiceRegistry.ServiceManager.constructor | backend/app/core/service_manager.py:17-27 | Setup registers exactly the configuration manager under "config" and the database manager under "database", in that order. |
| ServiceRegistry.ServiceManager.RegisterService | backend/app/core/service_manager.py:29-38 | The name maps to the new service, and an earlier one is overwritten. A new name goes last in the listing, and a re-registered one keeps its place. Afterwards `has_service` holds and `get_service` returns the service. |
| ServiceRegistry.ServiceManager.GetService | backend/app/core/service_manager.py:40-50 | The service under the name, and None exactly when the name is not registered. |
| ServiceRegistry.ServiceManager.HasService | backend/app/core/service_manager.py:52-62 | True exactly when `get_service` finds the name. |
| ServiceRegistry.ServiceManager.UnregisterService | backend/app/core/service_manager.py:64-78 | True if and only if the name was registered. Afterwards it is not. Every other name keeps its service and its place in the listing. |
| ServiceRegistry.ServiceManager.ListServices | backend/app/core/service_manager.py:80-87 | The names in insertion order, which the register and unregister methods maintain: every registered name exactly once, and nothing else. |
| ServiceRegistry.ServiceManager.GetConfigManager | backend/app/core/service_manager.py:89-91 | The service under "config", if any. |
| ServiceRegistry.ServiceManager.GetDatabaseManager | backend/app/core/service_manager.py:93-95 | The service under "database", if any. |
| ServiceRegistry.ServiceManager.Shutdown | backend/app/core/service_manager.py:118-129 | The registry is emptied: no name is registered afterwards. |
| ServiceRegistry.ServiceManagerScenario | backend/test_singleton_implementation.py:152-185 | On a fresh manager, every check of the registry test holds: the core services are present, accessible and listed; a custom service is registered, read back and then gone after unregistering. |

## Left out

- Floating point. Amounts are integer cents, so the `float(...)` conversions and `round(x, 2)` of the responses are not modelled. Percentages are exact `real`s.
- SQL evaluation, sessions, commit, refresh and rollback. The table is a sequence in memory. Rows that an `ORDER BY` leaves tied are kept in table order, which SQL does not promise. ORM objects are values.
- The order of `GROUP BY` groups. SQL does not fix it. The model uses the order in which a key first appears, the same order a Python dict loop gives.
- Ids are natural numbers handed out in increasing order, not UUIDs. In the CSV, `str(expense.id)` is rendered as the decimal digits.
- The HTTP layer: `HTTPException`, status codes, the success and message fields, and `ExpenseOut` validation. A "not found" is `None`. The service's `create_expense` and `get_expense` only wrap `Ledger.Create` and `Ledger.GetForUser` in such a response, so they have no member of their own.
- AI parsing and insights, receipt upload, and the bulk import that is commented out. These are foreign or dead code.
- `ILIKE` wildcards. A `%` or `_` inside the search fragment is taken literally, and lower-casing is ASCII only, with no collation.
- JSON beyond arrays of strings. Any other JSON value in the tags column reads back as no tags. The encoder writes `json.dumps`'s default `", "` separator and ASCII escaping.
- Lone surrogates in tag text. Dafny's `char` cannot hold an unpaired surrogate, so the decoder refuses an escape such as `\ud800` that is not part of a pair, and that tag list reads back as no tags. Python's `json.loads` accepts it and returns a string holding the lone surrogate.
- CSV quoting. Fields containing a comma, quote or line break are quoted, with quotes doubled. `csv.writer`'s other dialect options are not modelled.
- Amount text. `expense.amount` in the CSV is written as cents with two fraction digits. Python's float `str` is not modelled.
- Years before 1000 in labels. The day and month labels pad the year to four digits, as `isoformat` does. `strftime("%Y")` does not pad on every platform, and that platform difference is not modelled.
- The upper limit of `datetime` (year 9999) is not modelled.
- Paging arguments out of range are preconditions, not error results. `ListExpenses`, `ListExpensesPage`, `ListExpensesRowsMatch` and `Offset` require `page >= 1` and `limit >= 0`: the database refuses a negative OFFSET or LIMIT, and that refusal is not modelled. `Pages`, `PagesIsCeiling` and `GetExpenses` require `limit >= 1`: with a limit of 0 the page count `(total + limit - 1) // limit` raises `ZeroDivisionError`, and that error is not modelled.
- The cases where `datetime` raises are preconditions, not error results. They are `HasPreviousMonth`, `BreakdownDefined`, `TopStartDefined` (the same day must exist in the target month, so not the 31st after a 30-day month), `TrendDefined` and `SpendTrendDefined`.
- `datetime.now()` and `time.time()`. They are the parameter `now`.
- The thread lock of the rate limiter, the `inspect` binding and the `functools` wrappers. The model is sequential. The result of `bind_partial` is an `Option<Arguments>`, and `None` stands for the `TypeError`.
- Python truthiness in the rate limiter. `current_user or user` treats any present object as true, and a user id is given as its string form.
- Float timestamps in the rate limiter. Timestamps are integers in the same unit as the window.
- RateLimit.ReplayLog: holds only for calls whose instants do not go backwards, which a wall clock does not promise.
- RateLimit.SlidingWindow: holds only for calls whose instants do not go backwards.
- RateLimit.AllowedBound: also needs a positive window; with a window of 0 or less, even `now` itself is outside the window.
- RateLimit.Admit: the stored timestamps other than `now` are in the window, and `now` itself is in it only when the window is positive.
- ExpenseDashboard.CategoryTrend: its properties (`CategoryTrendSorted`, `CategoryTrendSound`, `CategoryTrendComplete`) are proved for any month-key function. That `f"{year}-{month:02d}"` gives distinct months distinct keys is not proved.
- ExpenseRepository.TopTransactionsProperties: `limit` is a natural number. A negative SQL `LIMIT` is not modelled.
- `get_application_status` of the service manager, which checks the database connection (I/O). The rest of `shutdown`, which closes the database connections (I/O).
- The singleton metaclass of `ServiceManager`. Each manager here is one object made by its constructor.
