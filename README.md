# Revenue aggregation engine — a Dafny model

This project models the revenue aggregation engine of a retail back office (`app/services/revenue.py`). The engine answers two requests:

- **Revenue by period.** Given a granularity (daily, weekly, monthly, annual), an optional date range and an optional category, it fills in the missing dates and takes the sales dated inside the range. It then lays down every calendar-aligned bucket between the start and the end with zero aggregates. Each sale is folded into the bucket whose key equals the sale's own key (its date, the Monday of its week, the first day of its month, or its year). Each bucket becomes a record with a guarded average order value and a label.
- **Comparison of two periods.** It runs the first request for two explicit ranges. It totals revenue and units for each, takes the differences, and computes guarded percentage changes.

Modules, one per file:

| file | module | contents |
|---|---|---|
| `wrappers.dfy` | `Wrappers` | `Option` and `Result` |
| `calendar.dfy` | `Calendar` | Proleptic Gregorian dates as Python's `datetime.date` has them: leap years, month lengths, the ordinal day number, weekday (Monday = 0), day arithmetic, and the Monday of a week. It proves that date order is day-number order and that the day number is injective. |
| `labels.dfy` | `Labels` | The label texts: `YYYY-MM-DD`, `str(year)`, and the English month names, with parse-back round trips. |
| `aggregation.dfy` | `Aggregation` | Sales, bucket tallies, the fold (`Accumulate`, imperative, over a `map`), finalisation (`Finalise`, imperative), the specification `Report`, and conservation of revenue and units. |
| `periods.dfy` | `Periods` | The four bucket builders. Each has its key sequence, lemmas about the keys (exact membership, contiguity, distinctness, coverage), the imperative builder proved equal to `Report` over those keys, and the shape of its records. |
| `revenue.dfy` | `Revenue` | Default dates, range resolution, the date-range query, dispatch (`RevenueByPeriod`), period summaries, the comparison (`CompareRevenue`), and conservation through the whole pipeline. |
| `scenarios.dfy` | `Scenarios` | Worked examples on concrete dates in 2024. |

How the source is represented:

- A Python dict keyed by bucket (insertion-ordered) is a `map` from key to `Bucket` plus the sequence of keys in insertion order. Records are emitted in that order.
- Money is `real`, and unit counts are `int`.
- A sale is its total amount, the date part of its timestamp and its items' quantities.
- `date.today()` is a parameter (`today`).
- The database query is a filter (`SalesInRange`) over a given sequence of sales (`store`) that is already restricted to the requested category.

The model follows the code in three places where its behaviour is easy to misread:

- **Averages in the comparison.** The comparison's per-period average divides revenue by the number of units sold, not by the number of orders.
- **Annual default on February 29.** The annual default start (`end_date.replace(year=year - 5)`) fails on February 29 when that earlier year is not leap. The model returns `Err(DayOutOfRange)` for that case; it does not report an empty result.
- **Inverted ranges.** An inverted range does not always give an empty report. A weekly request gives one bucket when the end falls on or after the Monday of the start's week. A monthly request gives one bucket when the start and the end are in the same month. An annual request gives one bucket when the start and the end are in the same year.

## Model

| member | source | states |
|---|---|---|
| `Calendar.AddDays` | app/services/revenue.py:31 | `d + timedelta(days=n)` lands exactly `n` day numbers after `d`, for either sign |
| `Calendar.NextDay` | app/services/revenue.py:138 | the next date is one day number later, rolling over month and year ends |
| `Calendar.WeekStart` | app/services/revenue.py:173-174 | `d - timedelta(days=d.weekday())` is a Monday, 0 to 6 days before `d` |
| `Calendar.OrderMatchesDayNumber` | app/services/revenue.py:132 | comparing dates with `<=` (lexicographic) agrees with comparing their day numbers, both directions |
| `Calendar.DayNumberInjective` | app/services/revenue.py:142 | two dates with the same day number are the same date, so a date-keyed dictionary lookup finds exactly its day |
| `Labels.IsoDateRoundTrip` | app/services/revenue.py:156 | the `%Y-%m-%d` label parses back to its date, so it names the date uniquely (years 0 to 9999) |
| `Labels.ZeroPadRoundTrip` | app/services/revenue.py:156 | a zero-padded field has exactly its width and reads back as its number |
| `Labels.IntToString` | app/services/revenue.py:312 | `str(year)` of a non-negative year is all digits, has no leading zero unless it is 0, and reads back as the year; a negative one starts with `-` |
| `Labels.MonthNameRoundTrip` | app/services/revenue.py:265 | the `%B` month name maps back to its month number, so distinct months have distinct names |
| `Aggregation.TotalsOrders` | app/services/revenue.py:140-145 | a bucket's order count is between 0 and the number of sales; it is 0 exactly when no sale's key is the bucket's key, and then its revenue and units are 0 |
| `Aggregation.AverageOrderValue` | app/services/revenue.py:148 | the average times the order count is the revenue when there are orders; otherwise the average is 0 |
| `Aggregation.Accumulate` | app/services/revenue.py:140-145 | the fold loop keeps the dictionary's key set; each entry gains exactly the revenue, units and order count of the sales whose key is its key; sales with no entry change nothing |
| `Aggregation.Finalise` | app/services/revenue.py:147-159 | the record loop emits one record per entry in insertion order, with the entry's bounds and totals, the guarded average, its label and the category |
| `Aggregation.ReportRecords` | app/services/revenue.py:147-159 | each record carries its bucket's bounds, the revenue and units of the sales keyed to it, revenue per order (0 when empty), its label and the category |
| `Aggregation.CapturedByOneMoreKey` | app/services/revenue.py:189-197 | shared by the folds of all four builders (also lines 140-145, 247-254, 295-301): adding a bucket adds exactly the tally of the sales keyed to it |
| `Aggregation.SumTotalsIsCaptured` | app/services/revenue.py:247-254 | shared by the folds of all four builders (also lines 140-145, 189-197, 295-301): with distinct keys, the buckets together hold exactly the sales whose key is a bucket key, each once |
| `Aggregation.ReportSums` | app/services/revenue.py:83-84 | the records' revenue and unit sums are the sums of the bucket tallies |
| `Aggregation.ReportConservesSales` | app/services/revenue.py:295-301 | shared by all four builders (also lines 140-145, 189-197, 247-254): with distinct keys, the records' total revenue and units equal those of the sales whose key is a bucket key |
| `Aggregation.CapturedAll` | app/services/revenue.py:189-197 | when every sale's key is a bucket key, no sale is dropped |
| `Aggregation.UnmatchedBucketIsZero` | app/services/revenue.py:133-137 | a bucket that no sale falls into reports revenue 0, units 0 and average 0 |
| `Periods.DailyKeysDistinct` | app/services/revenue.py:129-138 | the daily loop never lays down the same date twice |
| `Periods.DailyKeysExact` | app/services/revenue.py:132 | a date has a daily bucket exactly when it is from start through end |
| `Periods.DailyKeysContiguous` | app/services/revenue.py:129-138 | no daily buckets exactly when start is after end; otherwise the first is start, the last is end and each is the day after the previous |
| `Periods.DailyRecords` | app/services/revenue.py:147-159 | the i-th daily record covers the single date i days after start and is labelled with that date |
| `Periods.GroupByDay` | app/services/revenue.py:120-161 | `_group_revenue_by_day` returns exactly the report over the daily keys |
| `Periods.WeeksFromShape` | app/services/revenue.py:179-187 | the weekly loop's i-th start is 7i days after the first, on or before end; nothing when the first is after end; the last is within a week of end |
| `Periods.WeeksFromReach` | app/services/revenue.py:187 | every date 7n days after the first Monday and on or before end is visited, at position n |
| `Periods.WeeklyKeysExact` | app/services/revenue.py:189-194 | a sale's Monday has a bucket exactly when the sale is on or after the first Monday and its Monday is on or before end |
| `Periods.WeeklyKeysContiguous` | app/services/revenue.py:173-187 | no weekly buckets exactly when the first Monday is after end; the first starts on the Monday of start's week; each starts on a Monday on or before end, the next the day after it ends; the last ends on or after end |
| `Periods.WeeklyKeysDistinct` | app/services/revenue.py:179-187 | the weekly loop never lays down the same Monday twice |
| `Periods.LayWeeks` | app/services/revenue.py:173-187 | the bucket loop lays down exactly the weekly keys, in order and with no other entry in the table, each with zero aggregates and bounds Monday to Monday + 6 |
| `Periods.WeeklyRecords` | app/services/revenue.py:199-211 | the i-th weekly record starts on the Monday 7i days after the first, ends 6 days later and is labelled `Week of` its start |
| `Periods.GroupByWeek` | app/services/revenue.py:163-213 | `_group_revenue_by_week` returns exactly the report over the weekly keys |
| `Periods.NextMonthStart` | app/services/revenue.py:241-245 | the month step moves to the next month index, rolling December into January of the next year |
| `Periods.MonthAfter` | app/services/revenue.py:230 | the i-th month laid down is the first day of the month i months after start's |
| `Periods.MonthlyKeysExact` | app/services/revenue.py:247-251 | a sale's month start has a bucket exactly when its month is from start's month through end's month |
| `Periods.MonthlyKeysContiguous` | app/services/revenue.py:226-245 | no monthly buckets exactly when end's month precedes start's; the first and last are the months of start and end; each runs from day 1 to the true month length; the next starts the day after it ends |
| `Periods.MonthlyKeysDistinct` | app/services/revenue.py:229-245 | the monthly loop never lays down the same month twice |
| `Periods.LayMonths` | app/services/revenue.py:225-245 | the bucket loop lays down exactly the monthly keys, in order and with no other entry in the table, each with zero aggregates and bounds from day 1 to `monthrange` |
| `Periods.MonthlyRecords` | app/services/revenue.py:256-268 | the i-th monthly record covers the i-th month from start's, from its first to its last day, labelled month name and year |
| `Periods.GroupByMonth` | app/services/revenue.py:215-270 | `_group_revenue_by_month` returns exactly the report over the monthly keys |
| `Periods.AnnualKeysContiguous` | app/services/revenue.py:282-293 | no annual buckets exactly when start's year is after end's year; otherwise the first bucket begins on or before start, the last ends on or after end, and each begins the day after the previous one ends |
| `Periods.AnnualKeysDistinct` | app/services/revenue.py:282-293 | the annual loop never lays down the same year twice |
| `Periods.AnnualKeysExact` | app/services/revenue.py:295-298 | a sale's year has a bucket exactly when it is from start's year through end's year |
| `Periods.LayYears` | app/services/revenue.py:282-293 | the bucket loop lays down exactly the annual keys, in order and with no other entry in the table, each with zero aggregates and bounds January 1 to December 31 |
| `Periods.AnnualRecords` | app/services/revenue.py:303-315 | the i-th annual record covers January 1 to December 31 of the i-th year from start's, labelled `str(year)` |
| `Periods.GroupByYear` | app/services/revenue.py:272-317 | `_group_revenue_by_year` returns exactly the report over the annual keys |
| `Periods.DailyCoverage` | app/services/revenue.py:140-142 | every sale dated inside the range finds its daily bucket |
| `Periods.WeeklyCoverage` | app/services/revenue.py:189-194 | every sale dated inside the range finds its weekly bucket |
| `Periods.MonthlyCoverage` | app/services/revenue.py:247-251 | every sale dated inside the range finds its monthly bucket |
| `Periods.AnnualCoverage` | app/services/revenue.py:295-298 | every sale dated inside the range finds its annual bucket |
| `Revenue.DefaultStartMeaning` | app/services/revenue.py:29-37 | the default start is exactly 30 days before end (daily), or 84 days before on the same weekday (weekly), or January of end's year on the same day (monthly), or the same day 5 years back (annual), which fails exactly on February 29 when that year is not leap |
| `Revenue.DefaultRangeOrdered` | app/services/revenue.py:29-37 | a default start is never after the end |
| `Revenue.ResolveRangeMeaning` | app/services/revenue.py:28-37 | a missing end is today; a given start is kept; a missing start becomes the granularity's default start before that end, and is on or before it; resolution fails only for a missing annual start on such a February 29 |
| `Revenue.SalesInRangeExact` | app/services/revenue.py:49-57 | the query keeps exactly the sales dated from start through end, each as many times as the store holds it |
| `Revenue.BucketsConserveSales` | app/services/revenue.py:59-66 | for every granularity, when all sales are inside the range, the records' revenue and units add up to those of all the sales |
| `Revenue.RevenueReportConservesSales` | app/services/revenue.py:28-66 | a successful request reports, over all its buckets, exactly the revenue and units of the sales dated in its range |
| `Revenue.RevenueByPeriod` | app/services/revenue.py:18-66 | `get_revenue_by_period` resolves the range, queries and dispatches to the builder of its granularity, returning the specified report or the date error |
| `Revenue.PeriodNameRoundTrip` | app/services/revenue.py:96-97 | the `start to end` period name has 24 characters and gives back both bounds (years 0 to 9999) |
| `Revenue.SummaryTotals` | app/services/revenue.py:83-89 | a period's totals are its records' sums; its average times its units is its revenue, or 0 without units |
| `Revenue.SummaryOfSales` | app/services/revenue.py:83-88 | a period's totals are the revenue and units of the sales dated in its range |
| `Revenue.ChangePercentage` | app/services/revenue.py:92 | the percentage times a positive base is the change times 100; 0 when the base is not positive |
| `Revenue.CompareChanges` | app/services/revenue.py:91-94 | the changes carry period 1's totals to period 2's; growing a positive period-1 total by its percentage gives period 2's; otherwise the percentage is 0 |
| `Revenue.CompareSwapped` | app/services/revenue.py:93 | swapping the periods negates both changes |
| `Revenue.ComparingConservesSales` | app/services/revenue.py:80-94 | the changes are the differences of the revenue and units of the sales dated in each range |
| `Revenue.CompareRevenue` | app/services/revenue.py:68-118 | `compare_revenue` returns the comparison of the two summarised reports for the caller's explicit ranges |
| `Scenarios.DailyScenario` | app/services/revenue.py:140-155 | two sales two days apart, reported daily over three days, give three records; the middle one is all zero |
| `Scenarios.WeeklyScenarioStart` | app/services/revenue.py:191-192 | Wednesday 2024-01-03 aligns to Monday 2024-01-01 |
| `Scenarios.WeeklyScenarioEnd` | app/services/revenue.py:180 | the week starting 2024-01-01 ends on 2024-01-07 |
| `Scenarios.MonthlyScenario` | app/services/revenue.py:229-232 | 2024-01-15 to 2024-03-10 gives January, February and March, of 31, 29 and 31 days |
| `Scenarios.CompareScenario` | app/services/revenue.py:91-92 | a period without revenue against one of 500 gives change 500 and percentage 0 |

## Left out

- The database query (`select`, the category joins, `await self.db.execute`) is represented by a filter over a given sequence of sales. The category filter is assumed to have been applied to that sequence already. Possible duplicate rows from the joins are not modelled.
- `async`/`await` is plumbing and is not modelled.
- Floating-point money and its rounding are not modelled; amounts are exact reals.
- Time of day is not modelled. A sale is represented by the date part of its timestamp, which is what the query bounds and the bucket keys use.
- Python's year range 1 to 9999 is not modelled. Dates are unbounded, so the `OverflowError` and `ValueError` that date arithmetic or `date(...)` raise at the edges of that range do not occur in the model.
- `Labels.YearText`: `%Y` is modelled as four zero-padded digits (and the label round trips are stated for years 0 to 9999). Some C libraries print years below 1000 without padding.
- `Labels.MonthName`: `%B` is a fixed English table; other locales are not modelled.
- The `category_name` field echoes the `category_id` argument and is carried as an opaque `Option<int>`.
- The monthly default start's `13 - 12` branch can never be taken, because a month is always below 13. The model keeps the conditional, and `Revenue.DefaultStartMeaning` states that the result is January.
- `date.today()` is the parameter `today`.
