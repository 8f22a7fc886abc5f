/**
 * The four bucket builders. Each lays down every calendar-aligned bucket
 * between the start and end dates with zero aggregates (so that empty
 * periods still appear), folds the sales into the buckets by recomputing
 * each sale's key, and turns the buckets into records in insertion order.
 *
 * For each granularity: the bucket keys as a function of the range
 * (`DailyKeys`, `WeeklyKeys`, `MonthlyKeys`, `AnnualKeys`), lemmas about
 * those keys (exact membership, contiguity, coverage, distinctness), and the
 * imperative builder proved to produce `Report` over those keys.
 */
module Periods {
  import opened Wrappers
  import opened Calendar
  import opened Labels
  import opened Aggregation

  // ===========================================================================
  // Daily: one bucket per date, keyed by the date itself

  function DayKey(d: Date): Date { d }

  function DayBounds(d: Date): Span { Span(d, d) }

  const DailyScheme: Scheme<Date> := Scheme(DayKey, DayBounds, IsoDate)

  /** Number of dates from `start` to `end` inclusive; 0 for an inverted range. */
  function DayCount(start: Date, end: Date): nat {
    if OnOrBefore(start, end) then
      OrderMatchesDayNumber(start, end);
      DayNumber(end) - DayNumber(start) + 1
    else 0
  }

  /** The keys the daily builder lays down: `start`, the day after, ..., `end`. */
  function DailyKeys(start: Date, end: Date): (keys: seq<Date>)
    ensures |keys| == DayCount(start, end)
  {
    seq(DayCount(start, end), i requires 0 <= i => AddDays(start, i))
  }

  /** A date has a daily bucket exactly when it lies in the range. */
  lemma DailyKeysExact(start: Date, end: Date, d: Date)
    ensures d in DailyKeys(start, end) <==> OnOrBefore(start, d) && OnOrBefore(d, end)
  {
    var keys := DailyKeys(start, end);
    OrderMatchesDayNumber(start, d);
    OrderMatchesDayNumber(d, end);
    OrderMatchesDayNumber(start, end);
    if OnOrBefore(start, d) && OnOrBefore(d, end) {
      var i := DayNumber(d) - DayNumber(start);
      DayNumberInjective(keys[i], d);
    }
    if d in keys {
      var i :| 0 <= i < |keys| && keys[i] == d;
    }
  }

  /**
   * Daily buckets are the consecutive dates of the range: none for an
   * inverted range, otherwise the first is `start`, the last is `end`, and
   * each is the day after the one before; each bucket starts and ends on its date.
   */
  lemma DailyKeysContiguous(start: Date, end: Date)
    ensures DailyKeys(start, end) == [] <==> !OnOrBefore(start, end)
    ensures DailyKeys(start, end) != [] ==>
              DailyKeys(start, end)[0] == start && DailyKeys(start, end)[|DailyKeys(start, end)| - 1] == end
    ensures forall i :: 0 <= i < |DailyKeys(start, end)| - 1 ==>
              DailyKeys(start, end)[i + 1] == NextDay(DailyKeys(start, end)[i])
  {
    var keys := DailyKeys(start, end);
    OrderMatchesDayNumber(start, end);
    if keys != [] {
      DayNumberInjective(keys[|keys| - 1], end);
    }
    forall i | 0 <= i < |keys| - 1
      ensures keys[i + 1] == NextDay(keys[i])
    {
      DayNumberInjective(keys[i + 1], NextDay(keys[i]));
    }
  }

  lemma DailyKeysDistinct(start: Date, end: Date)
    ensures Distinct(DailyKeys(start, end))
  {
  }

  /** The daily builder: one zeroed bucket per date, the fold, the finalisation. */
  method GroupByDay(sales: seq<Sale>, start: Date, end: Date, category: Option<int>)
    returns (records: seq<RevenueRecord>)
    ensures records == Report(DailyScheme, DailyKeys(start, end), sales, category)
  {
    var keys := DailyKeys(start, end);
    var table: map<Date, Bucket> := map[];
    var order: seq<Date> := [];
    var current := start;
    while OnOrBefore(current, end)
      invariant |order| <= |keys| && order == keys[..|order|]
      invariant DayNumber(current) == DayNumber(start) + |order|
      invariant forall j :: 0 <= j < |order| ==> order[j] in table && table[order[j]] == EmptyBucket(DayBounds(order[j]))
      invariant table.Keys == set k | k in order
      decreases DayNumber(end) - DayNumber(current)
    {
      OrderMatchesDayNumber(current, end);
      OrderMatchesDayNumber(start, end);
      DayNumberInjective(current, keys[|order|]);
      table := table[current := Bucket(current, current, 0.0, 0, 0)];
      order := order + [current];
      current := AddDays(current, 1);
    }
    OrderMatchesDayNumber(current, end);
    OrderMatchesDayNumber(start, end);
    assert order == keys;
    table := Accumulate(sales, DayKey, table);
    records := Finalise(order, table, IsoDate, category);
  }

  // ===========================================================================
  // Weekly: Monday-start weeks, keyed by their Monday

  function WeekBounds(monday: Date): Span { Span(monday, AddDays(monday, 6)) }

  function WeekLabel(monday: Date): string { "Week of " + IsoDate(monday) }

  const WeeklyScheme: Scheme<Date> := Scheme(WeekStart, WeekBounds, WeekLabel)

  /** The dates the weekly builder visits from `current`: `current`, then every 7 days while on or before `end`. */
  function WeeksFrom(current: Date, end: Date): seq<Date>
    decreases DayNumber(end) - DayNumber(current)
  {
    if OnOrBefore(current, end) then
      OrderMatchesDayNumber(current, end);
      [current] + WeeksFrom(AddDays(current, 7), end)
    else []
  }

  /** One step of the weekly builder's loop, as `WeeksFrom` sees it. */
  lemma WeeksFromStep(current: Date, end: Date)
    ensures OnOrBefore(current, end) ==>
              WeeksFrom(current, end) == [current] + WeeksFrom(AddDays(current, 7), end)
              && 0 <= DayNumber(end) - DayNumber(current)
    ensures !OnOrBefore(current, end) ==> WeeksFrom(current, end) == []
  {
    OrderMatchesDayNumber(current, end);
  }

  /** The keys the weekly builder lays down: the Monday of `start`'s week, then every 7 days while on or before `end`. */
  function WeeklyKeys(start: Date, end: Date): seq<Date> {
    WeeksFrom(WeekStart(start), end)
  }

  lemma MondayGap(w: int, f: int)
    requires (w + 6) % 7 == 0 && (f + 6) % 7 == 0 && f - 7 < w
    ensures f <= w && f + 7 * ((w - f) / 7) == w
  {
  }

  /** Two Mondays less than a week apart in that order are a whole number of weeks apart. */
  lemma MondaysApart(first: Date, monday: Date)
    requires Weekday(first) == 0 && Weekday(monday) == 0 && DayNumber(first) - 7 < DayNumber(monday)
    ensures DayNumber(first) <= DayNumber(monday)
    ensures DayNumber(first) + 7 * ((DayNumber(monday) - DayNumber(first)) / 7) == DayNumber(monday)
  {
    MondayGap(DayNumber(monday), DayNumber(first));
  }

  /** A whole number of weeks after a Monday is a Monday. */
  lemma MondayStep(monday: Date, k: Date, i: int)
    requires Weekday(monday) == 0 && DayNumber(k) == DayNumber(monday) + 7 * i
    ensures Weekday(k) == 0
  {
    var f := DayNumber(monday);
    assert (f + 7 * i + 6) % 7 == (f + 6) % 7;
  }

  /**
   * What `WeeksFrom` visits: nothing exactly when `current` is after `end`;
   * otherwise the `i`-th date is `7 * i` days after `current` and on or
   * before `end`, and the last one is less than 7 days before `end`.
   */
  lemma {:induction false} WeeksFromShape(current: Date, end: Date)
    ensures WeeksFrom(current, end) == [] <==> !OnOrBefore(current, end)
    ensures forall i :: 0 <= i < |WeeksFrom(current, end)| ==>
              DayNumber(WeeksFrom(current, end)[i]) == DayNumber(current) + 7 * i
              && DayNumber(WeeksFrom(current, end)[i]) <= DayNumber(end)
    ensures WeeksFrom(current, end) != [] ==>
              DayNumber(end) < DayNumber(WeeksFrom(current, end)[|WeeksFrom(current, end)| - 1]) + 7
    decreases DayNumber(end) - DayNumber(current)
  {
    OrderMatchesDayNumber(current, end);
    if OnOrBefore(current, end) {
      var next := AddDays(current, 7);
      var rest := WeeksFrom(next, end);
      WeeksFromShape(next, end);
      OrderMatchesDayNumber(next, end);
      assert WeeksFrom(current, end) == [current] + rest;
    }
  }

  /** Every date on or before `end` that is `7 * n` days after `current` is visited, at position `n`. */
  lemma {:induction false} WeeksFromReach(current: Date, end: Date, k: Date, n: nat)
    requires DayNumber(k) == DayNumber(current) + 7 * n <= DayNumber(end)
    ensures n < |WeeksFrom(current, end)| && WeeksFrom(current, end)[n] == k
    decreases n
  {
    OrderMatchesDayNumber(current, end);
    var next := AddDays(current, 7);
    assert WeeksFrom(current, end) == [current] + WeeksFrom(next, end);
    if n == 0 {
      DayNumberInjective(k, current);
    } else {
      WeeksFromReach(next, end, k, n - 1);
    }
  }

  lemma WeeksFromDistinct(current: Date, end: Date)
    ensures Distinct(WeeksFrom(current, end))
  {
    WeeksFromShape(current, end);
  }

  /**
   * A sale lands in a weekly bucket exactly when its date is on or after the
   * Monday of `start`'s week and its own Monday is on or before `end`.
   */
  lemma WeeklyKeysExact(start: Date, end: Date, d: Date)
    ensures WeekStart(d) in WeeklyKeys(start, end)
            <==> OnOrBefore(WeekStart(start), d) && OnOrBefore(WeekStart(d), end)
  {
    var first, monday := WeekStart(start), WeekStart(d);
    var keys := WeeklyKeys(start, end);
    OrderMatchesDayNumber(first, d);
    OrderMatchesDayNumber(monday, end);
    WeeksFromShape(first, end);
    if OnOrBefore(first, d) && OnOrBefore(monday, end) {
      MondaysApart(first, monday);
      WeeksFromReach(first, end, monday, (DayNumber(monday) - DayNumber(first)) / 7);
    }
  }

  /**
   * Weekly buckets: none exactly when the Monday of `start`'s week is after
   * `end` (so an inverted range still has one bucket when `end` falls on or
   * after that Monday); otherwise the first starts on that Monday, every
   * bucket starts on a Monday on or before `end`, runs 7 days, and the next
   * one starts the day after it ends; the last one ends on or after `end`.
   */
  lemma WeeklyKeysContiguous(start: Date, end: Date)
    ensures WeeklyKeys(start, end) == [] <==> !OnOrBefore(WeekStart(start), end)
    ensures WeeklyKeys(start, end) != [] ==> WeeklyKeys(start, end)[0] == WeekStart(start)
    ensures forall k :: k in WeeklyKeys(start, end) ==> Weekday(k) == 0 && OnOrBefore(k, end)
    ensures forall i :: 0 <= i < |WeeklyKeys(start, end)| - 1 ==>
              WeeklyKeys(start, end)[i + 1] == NextDay(WeekBounds(WeeklyKeys(start, end)[i]).last)
    ensures WeeklyKeys(start, end) != [] ==>
              OnOrBefore(end, WeekBounds(WeeklyKeys(start, end)[|WeeklyKeys(start, end)| - 1]).last)
  {
    var keys := WeeklyKeys(start, end);
    var first := WeekStart(start);
    WeeksFromShape(first, end);
    if keys != [] {
      DayNumberInjective(keys[0], first);
      OrderMatchesDayNumber(end, WeekBounds(keys[|keys| - 1]).last);
    }
    forall k | k in keys
      ensures Weekday(k) == 0 && OnOrBefore(k, end)
    {
      var i :| 0 <= i < |keys| && keys[i] == k;
      MondayStep(first, k, i);
      OrderMatchesDayNumber(k, end);
    }
    forall i | 0 <= i < |keys| - 1
      ensures keys[i + 1] == NextDay(WeekBounds(keys[i]).last)
    {
      DayNumberInjective(keys[i + 1], NextDay(WeekBounds(keys[i]).last));
    }
  }

  lemma WeeklyKeysDistinct(start: Date, end: Date)
    ensures Distinct(WeeklyKeys(start, end))
  {
    WeeksFromDistinct(WeekStart(start), end);
  }

  /** The weekly builder's first loop: a zeroed 7-day bucket for each Monday from the Monday of `start`'s week while on or before `end`. */
  method LayWeeks(start: Date, end: Date) returns (order: seq<Date>, table: map<Date, Bucket>)
    ensures order == WeeklyKeys(start, end)
    ensures forall j :: 0 <= j < |order| ==> order[j] in table && table[order[j]] == EmptyBucket(WeekBounds(order[j]))
    ensures table.Keys == set k | k in order
  {
    table := map[];
    order := [];
    var current := WeekStart(start);
    while OnOrBefore(current, end)
      invariant order + WeeksFrom(current, end) == WeeklyKeys(start, end)
      invariant forall j :: 0 <= j < |order| ==> order[j] in table && table[order[j]] == EmptyBucket(WeekBounds(order[j]))
      invariant table.Keys == set k | k in order
      decreases DayNumber(end) - DayNumber(current)
    {
      WeeksFromStep(current, end);
      var weekEnd := AddDays(current, 6);
      table := table[current := Bucket(current, weekEnd, 0.0, 0, 0)];
      var next := AddDays(current, 7);
      assert (order + [current]) + WeeksFrom(next, end) == order + WeeksFrom(current, end);
      order := order + [current];
      current := next;
    }
    WeeksFromStep(current, end);
    assert order + WeeksFrom(current, end) == order;
  }

  /** The weekly builder: the zeroed weeks, the fold keyed by each sale's Monday, the finalisation. */
  method GroupByWeek(sales: seq<Sale>, start: Date, end: Date, category: Option<int>)
    returns (records: seq<RevenueRecord>)
    ensures records == Report(WeeklyScheme, WeeklyKeys(start, end), sales, category)
  {
    var order, table := LayWeeks(start, end);
    table := Accumulate(sales, WeekStart, table);
    records := Finalise(order, table, WeekLabel, category);
  }

  // ===========================================================================
  // Monthly: calendar months, keyed by their first day

  /** Months counted from January of year 0: the month of `d` as one integer. */
  function MonthIndex(d: Date): int { 12 * d.year + d.month - 1 }

  /** The first day of the month after `first`'s: the loop's month step, rolling December into January. */
  function NextMonthStart(first: Date): (r: Date)
    ensures MonthIndex(r) == MonthIndex(first) + 1 && r.day == 1
  {
    if first.month == 12 then Ymd(first.year + 1, 1, 1) else Ymd(first.year, first.month + 1, 1)
  }

  /** The first day of the `i`-th month after `start`'s. */
  function MonthAfter(start: Date, i: nat): (r: Date)
    ensures MonthIndex(r) == MonthIndex(start) + i && r.day == 1
  {
    if i == 0 then MonthStart(start) else NextMonthStart(MonthAfter(start, i - 1))
  }

  /** A first-of-month date is determined by its month index. */
  lemma MonthIndexInjective(a: Date, b: Date)
    requires a.day == 1 && b.day == 1 && MonthIndex(a) == MonthIndex(b)
    ensures a == b
  {
  }

  function MonthBounds(first: Date): Span {
    Span(first, Ymd(first.year, first.month, DaysInMonth(first.year, first.month)))
  }

  /** `strftime("%B %Y")`: the English month name and the year. */
  function MonthLabel(first: Date): string {
    MonthName(first.month) + " " + YearText(first.year)
  }

  const MonthlyScheme: Scheme<Date> := Scheme(MonthStart, MonthBounds, MonthLabel)

  /** Number of months from the month of `start` to the month of `end` inclusive. */
  function MonthCount(start: Date, end: Date): nat {
    if MonthIndex(start) <= MonthIndex(end) then MonthIndex(end) - MonthIndex(start) + 1 else 0
  }

  /** The keys the monthly builder lays down: the first day of each month from `start`'s to `end`'s. */
  function MonthlyKeys(start: Date, end: Date): (keys: seq<Date>)
    ensures |keys| == MonthCount(start, end)
  {
    seq(MonthCount(start, end), i requires 0 <= i => MonthAfter(start, i))
  }

  /** The month index follows the date order. */
  lemma MonthIndexMonotone(a: Date, b: Date)
    requires OnOrBefore(a, b)
    ensures MonthIndex(a) <= MonthIndex(b)
  {
  }

  /**
   * A sale lands in a monthly bucket exactly when its month is between the
   * month of `start` and the month of `end`, days ignored.
   */
  lemma MonthlyKeysExact(start: Date, end: Date, d: Date)
    ensures MonthStart(d) in MonthlyKeys(start, end)
            <==> MonthIndex(start) <= MonthIndex(d) <= MonthIndex(end)
  {
    var keys := MonthlyKeys(start, end);
    if MonthIndex(start) <= MonthIndex(d) <= MonthIndex(end) {
      var i := MonthIndex(d) - MonthIndex(start);
      MonthIndexInjective(keys[i], MonthStart(d));
    }
    if MonthStart(d) in keys {
      var i :| 0 <= i < |keys| && keys[i] == MonthStart(d);
    }
  }

  /**
   * Monthly buckets: none exactly when the month of `start` is after the
   * month of `end` (so a range inverted within one month still has one
   * bucket); otherwise the first is `start`'s month and the last `end`'s,
   * each runs from the 1st to the month's last day, and the next one
   * starts the day after it ends.
   */
  lemma MonthlyKeysContiguous(start: Date, end: Date)
    ensures MonthlyKeys(start, end) == [] <==> MonthIndex(end) < MonthIndex(start)
    ensures MonthlyKeys(start, end) != [] ==>
              MonthlyKeys(start, end)[0] == MonthStart(start)
              && MonthlyKeys(start, end)[|MonthlyKeys(start, end)| - 1] == MonthStart(end)
    ensures forall k :: k in MonthlyKeys(start, end) ==>
              k.day == 1 && MonthBounds(k).last.day == DaysInMonth(k.year, k.month)
    ensures forall i :: 0 <= i < |MonthlyKeys(start, end)| - 1 ==>
              MonthlyKeys(start, end)[i + 1] == NextDay(MonthBounds(MonthlyKeys(start, end)[i]).last)
  {
    var keys := MonthlyKeys(start, end);
    if keys != [] {
      MonthIndexInjective(keys[|keys| - 1], MonthStart(end));
    }
    forall k | k in keys
      ensures k.day == 1
    {
      var i :| 0 <= i < |keys| && keys[i] == k;
    }
    forall i | 0 <= i < |keys| - 1
      ensures keys[i + 1] == NextDay(MonthBounds(keys[i]).last)
    {
      assert keys[i + 1] == NextMonthStart(keys[i]);
    }
  }

  lemma MonthlyKeysDistinct(start: Date, end: Date)
    ensures Distinct(MonthlyKeys(start, end))
  {
    var keys := MonthlyKeys(start, end);
    forall i, j | 0 <= i < j < |keys|
      ensures keys[i] != keys[j]
    {
      assert MonthIndex(keys[i]) < MonthIndex(keys[j]);
    }
  }

  /** The monthly builder's first loop: a zeroed bucket for each month from `start`'s through `end`'s. */
  method LayMonths(start: Date, end: Date) returns (order: seq<Date>, table: map<Date, Bucket>)
    ensures order == MonthlyKeys(start, end)
    ensures forall j :: 0 <= j < |order| ==> order[j] in table && table[order[j]] == EmptyBucket(MonthBounds(order[j]))
    ensures table.Keys == set k | k in order
  {
    var keys := MonthlyKeys(start, end);
    table := map[];
    order := [];
    var year, month := start.year, start.month;
    while year < end.year || (year == end.year && month <= end.month)
      invariant 1 <= month <= 12
      invariant 12 * year + month - 1 == MonthIndex(start) + |order|
      invariant |order| <= |keys| && order == keys[..|order|]
      invariant forall j :: 0 <= j < |order| ==> order[j] in table && table[order[j]] == EmptyBucket(MonthBounds(order[j]))
      invariant table.Keys == set k | k in order
      decreases MonthIndex(end) - (12 * year + month - 1)
    {
      var monthStart := Ymd(year, month, 1);
      var lastDay := DaysInMonth(year, month);
      var monthEnd := Ymd(year, month, lastDay);
      MonthIndexInjective(monthStart, keys[|order|]);
      table := table[monthStart := Bucket(monthStart, monthEnd, 0.0, 0, 0)];
      order := order + [monthStart];
      if month == 12 {
        month := 1;
        year := year + 1;
      } else {
        month := month + 1;
      }
    }
    assert order == keys;
  }

  /** The monthly builder: the zeroed months, the fold keyed by each sale's first of the month, the finalisation. */
  method GroupByMonth(sales: seq<Sale>, start: Date, end: Date, category: Option<int>)
    returns (records: seq<RevenueRecord>)
    ensures records == Report(MonthlyScheme, MonthlyKeys(start, end), sales, category)
  {
    var order, table := LayMonths(start, end);
    table := Accumulate(sales, MonthStart, table);
    records := Finalise(order, table, MonthLabel, category);
  }

  // ===========================================================================
  // Annual: calendar years, keyed by the year number

  function YearOf(d: Date): int { d.year }

  function YearBounds(y: int): Span { Span(Ymd(y, 1, 1), Ymd(y, 12, 31)) }

  /** `str(year)`. */
  const AnnualScheme: Scheme<int> := Scheme(YearOf, YearBounds, IntToString)

  /** The keys the annual builder lays down: `range(start.year, end.year + 1)`. */
  function AnnualKeys(start: Date, end: Date): (keys: seq<int>)
    ensures |keys| == if start.year <= end.year then end.year - start.year + 1 else 0
  {
    seq(if start.year <= end.year then end.year - start.year + 1 else 0, i => start.year + i)
  }

  /** A sale lands in an annual bucket exactly when its year is between the years of `start` and `end`. */
  lemma AnnualKeysExact(start: Date, end: Date, y: int)
    ensures y in AnnualKeys(start, end) <==> start.year <= y <= end.year
  {
    if start.year <= y <= end.year {
      assert AnnualKeys(start, end)[y - start.year] == y;
    }
  }

  /**
   * Annual buckets: none exactly when the year of `start` is after the year
   * of `end`; otherwise the first bucket starts on January 1 of `start`'s
   * year, the last ends on December 31 of `end`'s year, and each starts the
   * day after the one before ends.
   */
  lemma AnnualKeysContiguous(start: Date, end: Date)
    ensures AnnualKeys(start, end) == [] <==> end.year < start.year
    ensures AnnualKeys(start, end) != [] ==>
              OnOrBefore(YearBounds(AnnualKeys(start, end)[0]).first, start)
              && OnOrBefore(end, YearBounds(AnnualKeys(start, end)[|AnnualKeys(start, end)| - 1]).last)
    ensures forall i :: 0 <= i < |AnnualKeys(start, end)| - 1 ==>
              YearBounds(AnnualKeys(start, end)[i + 1]).first == NextDay(YearBounds(AnnualKeys(start, end)[i]).last)
  {
  }

  lemma AnnualKeysDistinct(start: Date, end: Date)
    ensures Distinct(AnnualKeys(start, end))
  {
  }

  /** The annual builder's first loop: a zeroed bucket for each year from `start`'s through `end`'s. */
  method LayYears(start: Date, end: Date) returns (order: seq<int>, table: map<int, Bucket>)
    ensures order == AnnualKeys(start, end)
    ensures forall j :: 0 <= j < |order| ==> order[j] in table && table[order[j]] == EmptyBucket(YearBounds(order[j]))
    ensures table.Keys == set k | k in order
  {
    var keys := AnnualKeys(start, end);
    table := map[];
    order := [];
    var year := start.year;
    while year <= end.year
      invariant year == start.year + |order|
      invariant |order| <= |keys| && order == keys[..|order|]
      invariant forall j :: 0 <= j < |order| ==> order[j] in table && table[order[j]] == EmptyBucket(YearBounds(order[j]))
      invariant table.Keys == set k | k in order
      decreases end.year - year
    {
      var yearStart := Ymd(year, 1, 1);
      var yearEnd := Ymd(year, 12, 31);
      table := table[year := Bucket(yearStart, yearEnd, 0.0, 0, 0)];
      order := order + [year];
      year := year + 1;
    }
    assert order == keys;
  }

  /** The annual builder: the zeroed years, the fold keyed by each sale's year, the finalisation. */
  method GroupByYear(sales: seq<Sale>, start: Date, end: Date, category: Option<int>)
    returns (records: seq<RevenueRecord>)
    ensures records == Report(AnnualScheme, AnnualKeys(start, end), sales, category)
  {
    var order, table := LayYears(start, end);
    table := Accumulate(sales, YearOf, table);
    records := Finalise(order, table, IntToString, category);
  }

  // ===========================================================================
  // Coverage: every sale dated inside the range finds its bucket

  /** Every sale is dated from `start` through `end`, as the range query returns them. */
  predicate AllWithin(sales: seq<Sale>, start: Date, end: Date) {
    forall i :: 0 <= i < |sales| ==> OnOrBefore(start, sales[i].saleDate) && OnOrBefore(sales[i].saleDate, end)
  }

  lemma DailyCoverage(sales: seq<Sale>, start: Date, end: Date)
    requires AllWithin(sales, start, end)
    ensures forall i :: 0 <= i < |sales| ==> DailyScheme.keyOf(sales[i].saleDate) in DailyKeys(start, end)
  {
    forall i | 0 <= i < |sales|
      ensures DailyScheme.keyOf(sales[i].saleDate) in DailyKeys(start, end)
    {
      DailyKeysExact(start, end, sales[i].saleDate);
    }
  }

  lemma WeeklyCoverage(sales: seq<Sale>, start: Date, end: Date)
    requires AllWithin(sales, start, end)
    ensures forall i :: 0 <= i < |sales| ==> WeeklyScheme.keyOf(sales[i].saleDate) in WeeklyKeys(start, end)
  {
    forall i | 0 <= i < |sales|
      ensures WeeklyScheme.keyOf(sales[i].saleDate) in WeeklyKeys(start, end)
    {
      var d := sales[i].saleDate;
      OrderMatchesDayNumber(start, d);
      OrderMatchesDayNumber(d, end);
      OrderMatchesDayNumber(WeekStart(start), d);
      OrderMatchesDayNumber(WeekStart(d), end);
      WeeklyKeysExact(start, end, d);
    }
  }

  lemma MonthlyCoverage(sales: seq<Sale>, start: Date, end: Date)
    requires AllWithin(sales, start, end)
    ensures forall i :: 0 <= i < |sales| ==> MonthlyScheme.keyOf(sales[i].saleDate) in MonthlyKeys(start, end)
  {
    forall i | 0 <= i < |sales|
      ensures MonthlyScheme.keyOf(sales[i].saleDate) in MonthlyKeys(start, end)
    {
      var d := sales[i].saleDate;
      MonthIndexMonotone(start, d);
      MonthIndexMonotone(d, end);
      MonthlyKeysExact(start, end, d);
    }
  }

  lemma AnnualCoverage(sales: seq<Sale>, start: Date, end: Date)
    requires AllWithin(sales, start, end)
    ensures forall i :: 0 <= i < |sales| ==> AnnualScheme.keyOf(sales[i].saleDate) in AnnualKeys(start, end)
  {
    forall i | 0 <= i < |sales|
      ensures AnnualScheme.keyOf(sales[i].saleDate) in AnnualKeys(start, end)
    {
      AnnualKeysExact(start, end, sales[i].saleDate.year);
    }
  }

  // ===========================================================================
  // The records each builder returns

  /** Daily records: the i-th covers the single date i days after `start` and is labelled `YYYY-MM-DD`. */
  lemma DailyRecords(sales: seq<Sale>, start: Date, end: Date, category: Option<int>, records: seq<RevenueRecord>)
    requires records == Report(DailyScheme, DailyKeys(start, end), sales, category)
    ensures |records| == DayCount(start, end)
    ensures forall i :: 0 <= i < |records| ==>
              DayNumber(records[i].periodStart) == DayNumber(start) + i
              && records[i].periodEnd == records[i].periodStart
              && records[i].periodLabel == IsoDate(records[i].periodStart)
  {
    ReportRecords(DailyScheme, DailyKeys(start, end), sales, category, records);
  }

  /**
   * Weekly records: the i-th starts on the Monday 7*i days after the Monday
   * of `start`'s week, ends 6 days later, and is labelled `Week of YYYY-MM-DD`.
   */
  lemma WeeklyRecords(sales: seq<Sale>, start: Date, end: Date, category: Option<int>, records: seq<RevenueRecord>)
    requires records == Report(WeeklyScheme, WeeklyKeys(start, end), sales, category)
    ensures forall i :: 0 <= i < |records| ==>
              Weekday(records[i].periodStart) == 0
              && DayNumber(records[i].periodStart) == DayNumber(WeekStart(start)) + 7 * i
              && DayNumber(records[i].periodEnd) == DayNumber(records[i].periodStart) + 6
              && records[i].periodLabel == "Week of " + IsoDate(records[i].periodStart)
  {
    ReportRecords(WeeklyScheme, WeeklyKeys(start, end), sales, category, records);
    WeeksFromShape(WeekStart(start), end);
    WeeklyKeysContiguous(start, end);
    assert forall i :: 0 <= i < |records| ==> records[i].periodStart == WeeklyKeys(start, end)[i];
  }

  /**
   * Monthly records: the i-th is the i-th month from `start`'s month, runs
   * from its first to its last day, and is labelled with the month's name
   * and year.
   */
  lemma MonthlyRecords(sales: seq<Sale>, start: Date, end: Date, category: Option<int>, records: seq<RevenueRecord>)
    requires records == Report(MonthlyScheme, MonthlyKeys(start, end), sales, category)
    ensures |records| == MonthCount(start, end)
    ensures forall i :: 0 <= i < |records| ==>
              MonthIndex(records[i].periodStart) == MonthIndex(start) + i
              && records[i].periodStart.day == 1
              && records[i].periodEnd.year == records[i].periodStart.year
              && records[i].periodEnd.month == records[i].periodStart.month
              && records[i].periodEnd.day == DaysInMonth(records[i].periodStart.year, records[i].periodStart.month)
              && records[i].periodLabel == MonthName(records[i].periodStart.month) + " " + YearText(records[i].periodStart.year)
  {
    ReportRecords(MonthlyScheme, MonthlyKeys(start, end), sales, category, records);
  }

  /** Annual records: the i-th covers January 1 to December 31 of the i-th year from `start`'s year, labelled with that year. */
  lemma AnnualRecords(sales: seq<Sale>, start: Date, end: Date, category: Option<int>, records: seq<RevenueRecord>)
    requires records == Report(AnnualScheme, AnnualKeys(start, end), sales, category)
    ensures forall i :: 0 <= i < |records| ==>
              records[i].periodStart == Ymd(start.year + i, 1, 1)
              && records[i].periodEnd == Ymd(start.year + i, 12, 31)
              && records[i].periodLabel == IntToString(start.year + i)
  {
    ReportRecords(AnnualScheme, AnnualKeys(start, end), sales, category, records);
  }
}
