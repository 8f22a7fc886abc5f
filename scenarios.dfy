/**
 * Worked examples of the engine on concrete dates: a daily report with an
 * empty day between two sales, a mid-week start aligned to its Monday,
 * months of their true lengths across a leap February, and a comparison
 * against a period without revenue.
 */
module Scenarios {
  import opened Wrappers
  import opened Calendar
  import opened Aggregation
  import opened Periods
  import opened Revenue

  /** Day number of a date in 2024, through the closed formula for the years before it. */
  lemma DayNumber2024(d: Date)
    requires d.year == 2024
    ensures DayNumber(d) == 738885 + DaysBeforeMonth(2024, d.month) + d.day
  {
    DaysBeforeYearClosedForm(2024);
  }

  /** The tally a daily bucket receives from one sale. */
  lemma OneSale(a: Sale, k: Date)
    ensures Totals([a], DayKey, k) == if a.saleDate == k then NoSales.Plus(SaleTally(a)) else NoSales
  {
    assert [a][..0] == [];
  }

  /** The tally a daily bucket receives from two sales: the first sale's share, then the second's. */
  lemma TwoSales(a: Sale, b: Sale, k: Date)
    ensures Totals([a, b], DayKey, k)
            == (if a.saleDate == k then SaleTally(a) else NoSales).Plus(if b.saleDate == k then SaleTally(b) else NoSales)
  {
    OneSale(a, k);
    assert [a, b][..1] == [a];
  }

  /**
   * Sales of 100.00 (2 units) on 2024-01-01 and of 50.00 (1 unit) on
   * 2024-01-03, reported daily from 2024-01-01 to 2024-01-03: three records,
   * the first with revenue 100.00, 2 units and average 100.00, the second
   * all zero, the third with revenue 50.00.
   */
  lemma DailyScenario(first: Date, second: Date, third: Date, sales: seq<Sale>, records: seq<RevenueRecord>)
    requires first == Ymd(2024, 1, 1) && second == Ymd(2024, 1, 2) && third == Ymd(2024, 1, 3)
    requires sales == [Sale(100.0, first, [2]), Sale(50.0, third, [1])]
    requires records == Report(DailyScheme, DailyKeys(first, third), sales, None)
    ensures |records| == 3
    ensures records[0].periodStart == first && records[0].totalRevenue == 100.0
            && records[0].totalSales == 2 && records[0].averageOrderValue == 100.0
    ensures records[1].periodStart == second && records[1].totalRevenue == 0.0
            && records[1].totalSales == 0 && records[1].averageOrderValue == 0.0
    ensures records[2].periodStart == third && records[2].totalRevenue == 50.0
  {
    var keys := DailyKeys(first, third);
    DailyKeysContiguous(first, third);
    assert keys[1] == NextDay(keys[0]) == second;
    ReportRecords(DailyScheme, keys, sales, None, records);
    assert sales == [sales[0], sales[1]];
    ScenarioTallies(first, second, third, sales[0], sales[1]);
  }

  lemma ScenarioTallies(first: Date, second: Date, third: Date, a: Sale, b: Sale)
    requires first == Ymd(2024, 1, 1) && second == Ymd(2024, 1, 2) && third == Ymd(2024, 1, 3)
    requires a == Sale(100.0, first, [2]) && b == Sale(50.0, third, [1])
    ensures Totals([a, b], DayKey, first) == Tally(100.0, 2, 1)
    ensures Totals([a, b], DayKey, second) == Tally(0.0, 0, 0)
    ensures Totals([a, b], DayKey, third) == Tally(50.0, 1, 1)
  {
    assert SaleTally(a) == Tally(100.0, 2, 1) by {
      assert Units([2]) == 2;
    }
    assert SaleTally(b) == Tally(50.0, 1, 1) by {
      assert Units([1]) == 1;
    }
    TwoSales(a, b, first);
    TwoSales(a, b, second);
    TwoSales(a, b, third);
  }

  /** A start on Wednesday 2024-01-03 aligns to Monday 2024-01-01. */
  lemma WeeklyScenarioStart(wednesday: Date, monday: Date)
    requires wednesday == Ymd(2024, 1, 3) && monday == Ymd(2024, 1, 1)
    ensures Weekday(wednesday) == 2
    ensures WeekStart(wednesday) == monday
  {
    DayNumber2024(wednesday);
    DayNumber2024(monday);
    assert DayNumber(wednesday) == 738888;
    assert Weekday(wednesday) == 2;
    assert WeekStart(wednesday) == AddDays(wednesday, -2);
    DayNumberInjective(AddDays(wednesday, -2), monday);
  }

  /** The bucket starting Monday 2024-01-01 ends on Sunday 2024-01-07. */
  lemma WeeklyScenarioEnd(monday: Date, sunday: Date)
    requires monday == Ymd(2024, 1, 1) && sunday == Ymd(2024, 1, 7)
    ensures WeekBounds(monday).last == sunday
  {
    DayNumber2024(monday);
    DayNumber2024(sunday);
    DayNumberInjective(AddDays(monday, 6), sunday);
  }

  /** From 2024-01-15 to 2024-03-10 the monthly buckets are January (31 days), February (29, a leap year) and March (31). */
  lemma MonthlyScenario()
    ensures MonthlyKeys(Ymd(2024, 1, 15), Ymd(2024, 3, 10)) == [Ymd(2024, 1, 1), Ymd(2024, 2, 1), Ymd(2024, 3, 1)]
    ensures MonthBounds(Ymd(2024, 1, 1)).last == Ymd(2024, 1, 31)
    ensures MonthBounds(Ymd(2024, 2, 1)).last == Ymd(2024, 2, 29)
    ensures MonthBounds(Ymd(2024, 3, 1)).last == Ymd(2024, 3, 31)
  {
    var keys := MonthlyKeys(Ymd(2024, 1, 15), Ymd(2024, 3, 10));
    MonthlyKeysContiguous(Ymd(2024, 1, 15), Ymd(2024, 3, 10));
    assert keys[1] == NextDay(MonthBounds(keys[0]).last);
  }

  /** A first period without revenue against one of 500.00: the change is 500.00 and its percentage is 0. */
  lemma CompareScenario(p1: PeriodData, p2: PeriodData)
    requires p1.totalRevenue == 0.0 && p2.totalRevenue == 500.0
    ensures Compare(p1, p2).revenueChange == 500.0
    ensures Compare(p1, p2).revenueChangePercentage == 0.0
    ensures Compare(p1, p2).salesChange == p2.totalSales - p1.totalSales
  {
  }
}
