/**
 * The revenue service's entry points: resolving the reporting range from
 * optional dates, selecting the sales dated inside it, dispatching to the
 * bucket builder of the requested granularity, and comparing the totals of
 * two periods.
 *
 * The database is a sequence of sales (`store`) already restricted to the
 * requested category; "today" is a parameter.
 */
module Revenue {
  import opened Wrappers
  import opened Calendar
  import opened Labels
  import opened Aggregation
  import opened Periods

  datatype Granularity = Daily | Weekly | Monthly | Annual

  /** `date.replace` refusing a day the target month does not have. */
  datatype DateError = DayOutOfRange

  datatype DateRange = DateRange(start: Date, end: Date)

  // ===========================================================================
  // Default dates

  /**
   * The start date used when none is given: 30 days back for daily, 12 weeks
   * back for weekly, January of the same year for monthly (the source's
   * `1 if month < 13 else 13 - 12` is 1 either way), and the same day 5 years
   * back for annual, which fails on February 29 when that year is not leap.
   */
  function DefaultStart(g: Granularity, end: Date): Result<Date, DateError> {
    match g
    case Daily => Ok(AddDays(end, -30))
    case Weekly => Ok(AddDays(end, -7 * 12))
    case Monthly =>
      var month := if end.month < 13 then 1 else 13 - 12;
      Ok(Ymd(end.year, month, end.day))
    case Annual =>
      var year := end.year - 5;
      if end.day <= DaysInMonth(year, end.month) then Ok(Ymd(year, end.month, end.day))
      else Err(DayOutOfRange)
  }

  /** The range a request reports on: a missing end is today, a missing start is the default for the granularity. */
  function ResolveRange(g: Granularity, start: Option<Date>, end: Option<Date>, today: Date): Result<DateRange, DateError> {
    var e := if end.Some? then end.value else today;
    if start.Some? then Ok(DateRange(start.value, e))
    else
      match DefaultStart(g, e)
      case Ok(s) => Ok(DateRange(s, e))
      case Err(err) => Err(err)
  }

  /**
   * What each default start is: exactly 30 days, or exactly 12 weeks and the
   * same weekday, before the end; January of the end's year on the same day
   * of the month; or the same month and day 5 years earlier, failing exactly
   * when the end is February 29 and that earlier year is not leap.
   */
  lemma DefaultStartMeaning(g: Granularity, end: Date)
    ensures g == Daily ==> DefaultStart(g, end).Ok? && DayNumber(end) - DayNumber(DefaultStart(g, end).value) == 30
    ensures g == Weekly ==> DefaultStart(g, end).Ok? && DayNumber(end) - DayNumber(DefaultStart(g, end).value) == 84
                            && Weekday(DefaultStart(g, end).value) == Weekday(end)
    ensures g == Monthly ==> DefaultStart(g, end).Ok?
                             && DefaultStart(g, end).value.year == end.year
                             && DefaultStart(g, end).value.month == 1
                             && DefaultStart(g, end).value.day == end.day
    ensures g == Annual ==>
              (DefaultStart(g, end).Err? <==> end.month == 2 && end.day == 29 && !IsLeapYear(end.year - 5))
    ensures g == Annual && DefaultStart(g, end).Ok? ==>
              DefaultStart(g, end).value == Ymd(end.year - 5, end.month, end.day)
  {
    if g == Weekly {
      var s := DefaultStart(g, end).value;
      assert (DayNumber(end) - 84 + 6) % 7 == (DayNumber(end) + 6) % 7;
    }
  }

  /** A default start is never after the end, so a request without a start never reports on an inverted range. */
  lemma DefaultRangeOrdered(g: Granularity, end: Date)
    requires DefaultStart(g, end).Ok?
    ensures OnOrBefore(DefaultStart(g, end).value, end)
  {
    DefaultStartMeaning(g, end);
    OrderMatchesDayNumber(DefaultStart(g, end).value, end);
  }

  /**
   * How a range is resolved: the end is the given end or else today; a
   * given start is used as is, and a missing one becomes the default start
   * before that end, so resolution fails only for a missing start
   * under annual granularity when the end is February 29 of a year whose
   * fifth predecessor is not leap.
   */
  lemma ResolveRangeMeaning(g: Granularity, start: Option<Date>, end: Option<Date>, today: Date)
    ensures ResolveRange(g, start, end, today).Ok? ==>
              ResolveRange(g, start, end, today).value.end == (if end.Some? then end.value else today)
    ensures start.Some? ==>
              ResolveRange(g, start, end, today).Ok? && ResolveRange(g, start, end, today).value.start == start.value
    ensures ResolveRange(g, start, end, today).Err? <==>
              var e := if end.Some? then end.value else today;
              start.None? && g == Annual && e.month == 2 && e.day == 29 && !IsLeapYear(e.year - 5)
    ensures start.None? && ResolveRange(g, start, end, today).Ok? ==>
              ResolveRange(g, start, end, today).value.start
              == DefaultStart(g, if end.Some? then end.value else today).value
    ensures start.None? && ResolveRange(g, start, end, today).Ok? ==>
              OnOrBefore(ResolveRange(g, start, end, today).value.start, ResolveRange(g, start, end, today).value.end)
  {
    var e := if end.Some? then end.value else today;
    DefaultStartMeaning(g, e);
    if start.None? && DefaultStart(g, e).Ok? {
      DefaultRangeOrdered(g, e);
    }
  }

  // ===========================================================================
  // The range query and the dispatch

  /** The sales of `store` dated from `start` through `end`, in store order (the date-range query). */
  function SalesInRange(store: seq<Sale>, start: Date, end: Date): seq<Sale> {
    if store == [] then []
    else
      var rest := SalesInRange(store[..|store| - 1], start, end);
      var s := store[|store| - 1];
      if OnOrBefore(start, s.saleDate) && OnOrBefore(s.saleDate, end) then rest + [s] else rest
  }

  /** The query keeps exactly the sales dated inside the range, each as many times as the store holds it. */
  lemma {:induction false} SalesInRangeExact(store: seq<Sale>, start: Date, end: Date)
    ensures AllWithin(SalesInRange(store, start, end), start, end)
    ensures forall s :: s in SalesInRange(store, start, end) <==>
              s in store && OnOrBefore(start, s.saleDate) && OnOrBefore(s.saleDate, end)
    ensures forall s :: multiset(SalesInRange(store, start, end))[s]
                        == if OnOrBefore(start, s.saleDate) && OnOrBefore(s.saleDate, end) then multiset(store)[s] else 0
  {
    if store != [] {
      var init := store[..|store| - 1];
      SalesInRangeExact(init, start, end);
      assert store == init + [store[|store| - 1]];
    }
  }

  /** The records the requested granularity's builder produces for `sales` over the range. */
  function Buckets(g: Granularity, sales: seq<Sale>, start: Date, end: Date, category: Option<int>): seq<RevenueRecord> {
    match g
    case Daily => Report(DailyScheme, DailyKeys(start, end), sales, category)
    case Weekly => Report(WeeklyScheme, WeeklyKeys(start, end), sales, category)
    case Monthly => Report(MonthlyScheme, MonthlyKeys(start, end), sales, category)
    case Annual => Report(AnnualScheme, AnnualKeys(start, end), sales, category)
  }

  /** The whole request: resolve the range, query the sales in it, bucket them. */
  function RevenueReport(g: Granularity, start: Option<Date>, end: Option<Date>, category: Option<int>,
                         today: Date, store: seq<Sale>): Result<seq<RevenueRecord>, DateError>
  {
    match ResolveRange(g, start, end, today)
    case Err(err) => Err(err)
    case Ok(range) => Ok(Buckets(g, SalesInRange(store, range.start, range.end), range.start, range.end, category))
  }

  lemma SchemeConservesSales<K>(scheme: Scheme<K>, keys: seq<K>, sales: seq<Sale>, category: Option<int>)
    requires Distinct(keys)
    requires forall i :: 0 <= i < |sales| ==> scheme.keyOf(sales[i].saleDate) in keys
    ensures TotalRevenue(Report(scheme, keys, sales, category)) == AllSales(sales).revenue
    ensures TotalSales(Report(scheme, keys, sales, category)) == AllSales(sales).units
  {
    ReportConservesSales(scheme, keys, sales, category);
    CapturedAll(sales, scheme.keyOf, keys);
  }

  /**
   * Conservation: when every sale is dated inside the range, the bucket
   * revenues add up to the sales' amounts and the bucket unit counts to
   * their item quantities, whatever the granularity; no sale is dropped
   * and none is counted twice.
   */
  lemma BucketsConserveSales(g: Granularity, sales: seq<Sale>, start: Date, end: Date, category: Option<int>)
    requires AllWithin(sales, start, end)
    ensures TotalRevenue(Buckets(g, sales, start, end, category)) == AllSales(sales).revenue
    ensures TotalSales(Buckets(g, sales, start, end, category)) == AllSales(sales).units
  {
    match g
    case Daily =>
      DailyKeysDistinct(start, end);
      DailyCoverage(sales, start, end);
      SchemeConservesSales(DailyScheme, DailyKeys(start, end), sales, category);
    case Weekly =>
      WeeklyKeysDistinct(start, end);
      WeeklyCoverage(sales, start, end);
      SchemeConservesSales(WeeklyScheme, WeeklyKeys(start, end), sales, category);
    case Monthly =>
      MonthlyKeysDistinct(start, end);
      MonthlyCoverage(sales, start, end);
      SchemeConservesSales(MonthlyScheme, MonthlyKeys(start, end), sales, category);
    case Annual =>
      AnnualKeysDistinct(start, end);
      AnnualCoverage(sales, start, end);
      SchemeConservesSales(AnnualScheme, AnnualKeys(start, end), sales, category);
  }

  /** A successful request reports, over all its buckets, exactly the revenue and units of the sales dated in its range. */
  lemma RevenueReportConservesSales(g: Granularity, start: Option<Date>, end: Option<Date>, category: Option<int>,
                                    today: Date, store: seq<Sale>)
    ensures RevenueReport(g, start, end, category, today, store).Ok? ==>
              var range := ResolveRange(g, start, end, today).value;
              var records := RevenueReport(g, start, end, category, today, store).value;
              TotalRevenue(records) == AllSales(SalesInRange(store, range.start, range.end)).revenue
              && TotalSales(records) == AllSales(SalesInRange(store, range.start, range.end)).units
  {
    if ResolveRange(g, start, end, today).Ok? {
      var range := ResolveRange(g, start, end, today).value;
      SalesInRangeExact(store, range.start, range.end);
      BucketsConserveSales(g, SalesInRange(store, range.start, range.end), range.start, range.end, category);
    }
  }

  /** `get_revenue_by_period`: resolve the range, query, dispatch to the granularity's builder. */
  method RevenueByPeriod(g: Granularity, start: Option<Date>, end: Option<Date>, category: Option<int>,
                         today: Date, store: seq<Sale>)
    returns (r: Result<seq<RevenueRecord>, DateError>)
    ensures r == RevenueReport(g, start, end, category, today, store)
  {
    var e := if end.Some? then end.value else today;
    var s: Date;
    if start.Some? {
      s := start.value;
    } else {
      var d := DefaultStart(g, e);
      if d.Err? {
        return Err(d.error);
      }
      s := d.value;
    }
    var sales := SalesInRange(store, s, e);
    var records: seq<RevenueRecord>;
    match g {
      case Daily => records := GroupByDay(sales, s, e, category);
      case Weekly => records := GroupByWeek(sales, s, e, category);
      case Monthly => records := GroupByMonth(sales, s, e, category);
      case Annual => records := GroupByYear(sales, s, e, category);
    }
    r := Ok(records);
  }

  // ===========================================================================
  // Comparing two periods

  datatype PeriodData = PeriodData(
    periodName: string,
    data: seq<RevenueRecord>,
    totalRevenue: real,
    totalSales: int,
    averageOrderValue: real)

  datatype Comparison = Comparison(
    period1: PeriodData,
    period2: PeriodData,
    revenueChange: real,
    revenueChangePercentage: real,
    salesChange: int,
    salesChangePercentage: real)

  /** `"{start:%Y-%m-%d} to {end:%Y-%m-%d}"`. */
  function PeriodName(start: Date, end: Date): string {
    IsoDate(start) + " to " + IsoDate(end)
  }

  /** A period's name gives back both of its bounds (years 0 to 9999). */
  lemma PeriodNameRoundTrip(start: Date, end: Date)
    requires 0 <= start.year <= 9999 && 0 <= end.year <= 9999
    ensures |PeriodName(start, end)| == 24
    ensures ParseIsoDate(PeriodName(start, end)[..10]) == Some(start)
    ensures PeriodName(start, end)[10..14] == " to "
    ensures ParseIsoDate(PeriodName(start, end)[14..]) == Some(end)
  {
    IsoDateRoundTrip(start);
    IsoDateRoundTrip(end);
    var name := PeriodName(start, end);
    assert name[..10] == IsoDate(start);
    assert name[14..] == IsoDate(end);
  }

  /**
   * A period's totals over its records. The average divides the revenue by
   * the unit count (not the order count), and is 0 when there are no units.
   */
  function Summarise(name: string, records: seq<RevenueRecord>): PeriodData {
    var revenue := TotalRevenue(records);
    var units := TotalSales(records);
    PeriodData(name, records, revenue, units, AverageOrderValue(revenue, units))
  }

  /** A summary's totals are its records' sums, and its average is revenue per unit (0 without units). */
  lemma SummaryTotals(name: string, records: seq<RevenueRecord>, revenue: real, units: int)
    requires TotalRevenue(records) == revenue && TotalSales(records) == units
    ensures Summarise(name, records).totalRevenue == revenue
    ensures Summarise(name, records).totalSales == units
    ensures units > 0 ==> Summarise(name, records).averageOrderValue * units as real == revenue
    ensures units <= 0 ==> Summarise(name, records).averageOrderValue == 0.0
  {
  }

  /** `change / base * 100` when the base is positive, else 0. */
  function ChangePercentage(change: real, base: real): (pct: real)
    ensures base > 0.0 ==> pct * base == change * 100.0
    ensures base <= 0.0 ==> pct == 0.0
  {
    if base > 0.0 then change / base * 100.0 else 0.0
  }

  /** The comparison of two summarised periods: period 2 minus period 1, and that change as a percentage of period 1. */
  function Compare(p1: PeriodData, p2: PeriodData): Comparison {
    var revenueChange := p2.totalRevenue - p1.totalRevenue;
    var salesChange := p2.totalSales - p1.totalSales;
    Comparison(p1, p2,
      revenueChange, ChangePercentage(revenueChange, p1.totalRevenue),
      salesChange, ChangePercentage(salesChange as real, p1.totalSales as real))
  }

  /**
   * The changes carry period 1's totals to period 2's; when period 1's
   * total is positive, growing it by the percentage gives period 2's total,
   * and otherwise the percentage is 0.
   */
  lemma CompareChanges(p1: PeriodData, p2: PeriodData)
    ensures p1.totalRevenue + Compare(p1, p2).revenueChange == p2.totalRevenue
    ensures p1.totalSales + Compare(p1, p2).salesChange == p2.totalSales
    ensures p1.totalRevenue > 0.0 ==>
              p1.totalRevenue + p1.totalRevenue * Compare(p1, p2).revenueChangePercentage / 100.0 == p2.totalRevenue
    ensures p1.totalRevenue <= 0.0 ==> Compare(p1, p2).revenueChangePercentage == 0.0
    ensures p1.totalSales > 0 ==>
              p1.totalSales as real + p1.totalSales as real * Compare(p1, p2).salesChangePercentage / 100.0
              == p2.totalSales as real
    ensures p1.totalSales <= 0 ==> Compare(p1, p2).salesChangePercentage == 0.0
  {
    var c := Compare(p1, p2);
    if p1.totalRevenue > 0.0 {
      var b, pct := p1.totalRevenue, c.revenueChangePercentage;
      assert pct * b == c.revenueChange * 100.0;
      assert b * pct / 100.0 == c.revenueChange;
    }
    if p1.totalSales > 0 {
      var b, pct := p1.totalSales as real, c.salesChangePercentage;
      assert pct * b == c.salesChange as real * 100.0;
      assert b * pct / 100.0 == c.salesChange as real;
    }
  }

  /** Swapping the periods negates both changes. */
  lemma CompareSwapped(p1: PeriodData, p2: PeriodData)
    ensures Compare(p2, p1).revenueChange == -Compare(p1, p2).revenueChange
    ensures Compare(p2, p1).salesChange == -Compare(p1, p2).salesChange
  {
  }

  /** The comparison the service returns for two explicit ranges. */
  function Comparing(g: Granularity, start1: Date, end1: Date, start2: Date, end2: Date,
                     category: Option<int>, store: seq<Sale>): Comparison
  {
    var data1 := Buckets(g, SalesInRange(store, start1, end1), start1, end1, category);
    var data2 := Buckets(g, SalesInRange(store, start2, end2), start2, end2, category);
    Compare(Summarise(PeriodName(start1, end1), data1), Summarise(PeriodName(start2, end2), data2))
  }

  /** A period's summary totals the revenue and the units of the sales dated in its range. */
  lemma SummaryOfSales(g: Granularity, store: seq<Sale>, start: Date, end: Date, category: Option<int>, name: string)
    ensures Summarise(name, Buckets(g, SalesInRange(store, start, end), start, end, category)).totalRevenue
            == AllSales(SalesInRange(store, start, end)).revenue
    ensures Summarise(name, Buckets(g, SalesInRange(store, start, end), start, end, category)).totalSales
            == AllSales(SalesInRange(store, start, end)).units
  {
    var sales := SalesInRange(store, start, end);
    SalesInRangeExact(store, start, end);
    BucketsConserveSales(g, sales, start, end, category);
  }

  /** The changes between the periods are the differences of the revenue and units of the sales dated in each range. */
  lemma ComparingConservesSales(g: Granularity, start1: Date, end1: Date, start2: Date, end2: Date,
                                category: Option<int>, store: seq<Sale>)
    ensures Comparing(g, start1, end1, start2, end2, category, store).revenueChange
            == AllSales(SalesInRange(store, start2, end2)).revenue - AllSales(SalesInRange(store, start1, end1)).revenue
    ensures Comparing(g, start1, end1, start2, end2, category, store).salesChange
            == AllSales(SalesInRange(store, start2, end2)).units - AllSales(SalesInRange(store, start1, end1)).units
  {
    SummaryOfSales(g, store, start1, end1, category, PeriodName(start1, end1));
    SummaryOfSales(g, store, start2, end2, category, PeriodName(start2, end2));
  }

  /** `compare_revenue`: both periods through the request pipeline, then the totals and changes. */
  method CompareRevenue(g: Granularity, start1: Date, end1: Date, start2: Date, end2: Date,
                        category: Option<int>, today: Date, store: seq<Sale>)
    returns (c: Comparison)
    ensures c == Comparing(g, start1, end1, start2, end2, category, store)
  {
    var r1 := RevenueByPeriod(g, Some(start1), Some(end1), category, today, store);
    var r2 := RevenueByPeriod(g, Some(start2), Some(end2), category, today, store);
    var p1 := Summarise(PeriodName(start1, end1), r1.value);
    var p2 := Summarise(PeriodName(start2, end2), r2.value);
    c := Compare(p1, p2);
  }
}
