/**
 * The bucket fold and the finalisation shared by the four granularities:
 * each sale adds its amount, its item quantities and one order to the bucket
 * whose key equals the sale's own key; each bucket then becomes a record with
 * a guarded average order value.
 */
module Aggregation {
  import opened Wrappers
  import opened Calendar

  /** A sale as the engine reads it: total amount, the date part of its timestamp, its items' quantities. */
  datatype Sale = Sale(totalAmount: real, saleDate: Date, quantities: seq<int>)

  /** `sum(item.quantity for item in sale.items)`. */
  function Units(quantities: seq<int>): int {
    if quantities == [] then 0
    else Units(quantities[..|quantities| - 1]) + quantities[|quantities| - 1]
  }

  /** Running aggregates of a bucket: revenue, units sold, orders. */
  datatype Tally = Tally(revenue: real, units: int, orders: int) {
    function Plus(other: Tally): Tally {
      Tally(revenue + other.revenue, units + other.units, orders + other.orders)
    }
  }

  const NoSales := Tally(0.0, 0, 0)

  /** What one sale adds to its bucket: its amount, its units and one order. */
  function SaleTally(s: Sale): Tally {
    Tally(s.totalAmount, Units(s.quantities), 1)
  }

  /** The aggregates the fold leaves in the bucket with key `k`. */
  function Totals<K(==)>(sales: seq<Sale>, keyOf: Date -> K, k: K): Tally {
    if sales == [] then NoSales
    else
      var s := sales[|sales| - 1];
      var before := Totals(sales[..|sales| - 1], keyOf, k);
      if keyOf(s.saleDate) == k then before.Plus(SaleTally(s)) else before
  }

  /**
   * A bucket's order count is between 0 and the number of sales; it is 0
   * exactly when no sale's key is the bucket's key, and then the bucket's
   * revenue and units are 0 too.
   */
  lemma {:induction false} TotalsOrders<K>(sales: seq<Sale>, keyOf: Date -> K, k: K)
    ensures 0 <= Totals(sales, keyOf, k).orders <= |sales|
    ensures Totals(sales, keyOf, k).orders == 0 <==> forall i :: 0 <= i < |sales| ==> keyOf(sales[i].saleDate) != k
    ensures Totals(sales, keyOf, k).orders == 0 ==> Totals(sales, keyOf, k).revenue == 0.0 && Totals(sales, keyOf, k).units == 0
  {
    if sales != [] {
      var prefix := sales[..|sales| - 1];
      TotalsOrders(prefix, keyOf, k);
      assert forall i :: 0 <= i < |prefix| ==> prefix[i] == sales[i];
    }
  }

  /** The tallies of the sales whose key is one of `keys`, added up. */
  function Captured<K(==)>(sales: seq<Sale>, keyOf: Date -> K, keys: seq<K>): Tally {
    if sales == [] then NoSales
    else
      var s := sales[|sales| - 1];
      var before := Captured(sales[..|sales| - 1], keyOf, keys);
      if keyOf(s.saleDate) in keys then before.Plus(SaleTally(s)) else before
  }

  /** The tallies of all `sales`, added up. */
  function AllSales(sales: seq<Sale>): Tally {
    if sales == [] then NoSales
    else AllSales(sales[..|sales| - 1]).Plus(SaleTally(sales[|sales| - 1]))
  }

  /** The first and last day of a bucket. */
  datatype Span = Span(first: Date, last: Date)

  /** One entry of the bucket dictionary: its bounds and its running aggregates. */
  datatype Bucket = Bucket(periodStart: Date, periodEnd: Date, totalRevenue: real, totalSales: int, orderCount: int) {
    function Add(t: Tally): Bucket {
      Bucket(periodStart, periodEnd, totalRevenue + t.revenue, totalSales + t.units, orderCount + t.orders)
    }
  }

  /** A freshly laid-down bucket: zero revenue, zero units, zero orders. */
  function EmptyBucket(span: Span): Bucket {
    Bucket(span.first, span.last, 0.0, 0, 0)
  }

  /** One row of the engine's output. `categoryName` echoes the category filter it was given. */
  datatype RevenueRecord = RevenueRecord(
    periodStart: Date,
    periodEnd: Date,
    totalRevenue: real,
    totalSales: int,
    averageOrderValue: real,
    periodLabel: string,
    categoryName: Option<int>)

  /** Revenue per order, 0 when there are no orders. */
  function AverageOrderValue(revenue: real, orders: int): (avg: real)
    ensures orders > 0 ==> avg * orders as real == revenue
    ensures orders <= 0 ==> avg == 0.0
  {
    if orders > 0 then revenue / orders as real else 0.0
  }

  /** The record a finished bucket becomes. */
  function MakeRecord(b: Bucket, periodLabel: string, category: Option<int>): RevenueRecord {
    RevenueRecord(b.periodStart, b.periodEnd, b.totalRevenue, b.totalSales,
                  AverageOrderValue(b.totalRevenue, b.orderCount), periodLabel, category)
  }

  /** How one granularity keys a sale's date, bounds a bucket and labels it. */
  datatype Scheme<!K> = Scheme(keyOf: Date -> K, bounds: K -> Span, labelOf: K -> string)

  /** The record for the bucket with key `k` once every sale has been folded in. */
  function BucketRecord<K(==)>(scheme: Scheme<K>, sales: seq<Sale>, category: Option<int>, k: K): RevenueRecord {
    MakeRecord(EmptyBucket(scheme.bounds(k)).Add(Totals(sales, scheme.keyOf, k)), scheme.labelOf(k), category)
  }

  /** The engine's output for the bucket keys `keys`, in that order. */
  function Report<K(==)>(scheme: Scheme<K>, keys: seq<K>, sales: seq<Sale>, category: Option<int>): (records: seq<RevenueRecord>)
    ensures |records| == |keys|
  {
    seq(|keys|, i requires 0 <= i < |keys| => BucketRecord(scheme, sales, category, keys[i]))
  }

  /**
   * Each record carries its bucket's bounds, the revenue and units of the
   * sales keyed to it, their revenue per order (0 for an empty bucket), its
   * label and the category it was asked for.
   */
  lemma ReportRecords<K>(scheme: Scheme<K>, keys: seq<K>, sales: seq<Sale>, category: Option<int>, records: seq<RevenueRecord>)
    requires records == Report(scheme, keys, sales, category)
    ensures |records| == |keys|
    ensures forall i :: 0 <= i < |records| ==>
              records[i].periodStart == scheme.bounds(keys[i]).first
              && records[i].periodEnd == scheme.bounds(keys[i]).last
              && records[i].totalRevenue == Totals(sales, scheme.keyOf, keys[i]).revenue
              && records[i].totalSales == Totals(sales, scheme.keyOf, keys[i]).units
              && records[i].periodLabel == scheme.labelOf(keys[i])
              && records[i].categoryName == category
    ensures forall i :: 0 <= i < |records| ==>
              (Totals(sales, scheme.keyOf, keys[i]).orders > 0 ==>
                 records[i].averageOrderValue * Totals(sales, scheme.keyOf, keys[i]).orders as real == records[i].totalRevenue)
              && (Totals(sales, scheme.keyOf, keys[i]).orders == 0 ==> records[i].averageOrderValue == 0.0)
  {
  }

  /** `sum(item.total_revenue for item in records)`. */
  function TotalRevenue(records: seq<RevenueRecord>): real {
    if records == [] then 0.0
    else TotalRevenue(records[..|records| - 1]) + records[|records| - 1].totalRevenue
  }

  /** `sum(item.total_sales for item in records)`. */
  function TotalSales(records: seq<RevenueRecord>): int {
    if records == [] then 0
    else TotalSales(records[..|records| - 1]) + records[|records| - 1].totalSales
  }

  predicate Distinct<K(==)>(keys: seq<K>) {
    forall i, j :: 0 <= i < j < |keys| ==> keys[i] != keys[j]
  }

  /** The tallies of the buckets `keys`, added up. */
  function SumTotals<K(==)>(sales: seq<Sale>, keyOf: Date -> K, keys: seq<K>): Tally {
    if keys == [] then NoSales
    else SumTotals(sales, keyOf, keys[..|keys| - 1]).Plus(Totals(sales, keyOf, keys[|keys| - 1]))
  }

  // ---------------------------------------------------------------------------
  // The imperative fold and finalisation

  /**
   * The loop over the sales: a sale whose key is in the table adds its amount,
   * its units and one order to that entry; any other sale is skipped.
   */
  method Accumulate<K(==)>(sales: seq<Sale>, keyOf: Date -> K, table: map<K, Bucket>) returns (updated: map<K, Bucket>)
    ensures updated.Keys == table.Keys
    ensures forall k :: k in updated ==> updated[k] == table[k].Add(Totals(sales, keyOf, k))
  {
    updated := table;
    for i := 0 to |sales|
      invariant updated.Keys == table.Keys
      invariant forall k :: k in updated ==> updated[k] == table[k].Add(Totals(sales[..i], keyOf, k))
    {
      var sale := sales[i];
      var key := keyOf(sale.saleDate);
      assert sales[..i + 1][..i] == sales[..i];
      if key in updated {
        var entry := updated[key];
        updated := updated[key := entry.(totalRevenue := entry.totalRevenue + sale.totalAmount,
                                         totalSales := entry.totalSales + Units(sale.quantities),
                                         orderCount := entry.orderCount + 1)];
      }
    }
    assert sales[..|sales|] == sales;
  }

  /** The loop over the table's entries in insertion order, turning each into a record. */
  method Finalise<K(==)>(order: seq<K>, table: map<K, Bucket>, labelOf: K -> string, category: Option<int>)
    returns (records: seq<RevenueRecord>)
    requires forall i :: 0 <= i < |order| ==> order[i] in table
    ensures |records| == |order|
    ensures forall i :: 0 <= i < |order| ==> records[i] == MakeRecord(table[order[i]], labelOf(order[i]), category)
  {
    records := [];
    for i := 0 to |order|
      invariant |records| == i
      invariant forall j :: 0 <= j < i ==> records[j] == MakeRecord(table[order[j]], labelOf(order[j]), category)
    {
      var entry := table[order[i]];
      var average := if entry.orderCount > 0 then entry.totalRevenue / entry.orderCount as real else 0.0;
      records := records + [RevenueRecord(entry.periodStart, entry.periodEnd, entry.totalRevenue,
                                          entry.totalSales, average, labelOf(order[i]), category)];
    }
  }

  // ---------------------------------------------------------------------------
  // Conservation

  /** No sale falls into an empty set of buckets. */
  lemma {:induction false} CapturedByNoKeys<K>(sales: seq<Sale>, keyOf: Date -> K, keys: seq<K>)
    requires keys == []
    ensures Captured(sales, keyOf, keys) == NoSales
  {
    if sales != [] {
      CapturedByNoKeys(sales[..|sales| - 1], keyOf, keys);
    }
  }

  /** Adding a bucket key `k` adds exactly the tally of the bucket `k`. */
  lemma {:induction false} CapturedByOneMoreKey<K>(sales: seq<Sale>, keyOf: Date -> K, keys: seq<K>, k: K)
    requires k !in keys
    ensures Captured(sales, keyOf, keys + [k]) == Captured(sales, keyOf, keys).Plus(Totals(sales, keyOf, k))
  {
    if sales != [] {
      var s := sales[|sales| - 1];
      CapturedByOneMoreKey(sales[..|sales| - 1], keyOf, keys, k);
      assert keyOf(s.saleDate) in keys + [k] <==> keyOf(s.saleDate) in keys || keyOf(s.saleDate) == k;
    }
  }

  /** With distinct keys, the buckets together hold exactly the sales whose key is a bucket key. */
  lemma {:induction false} SumTotalsIsCaptured<K>(sales: seq<Sale>, keyOf: Date -> K, keys: seq<K>)
    requires Distinct(keys)
    ensures SumTotals(sales, keyOf, keys) == Captured(sales, keyOf, keys)
  {
    if keys == [] {
      CapturedByNoKeys(sales, keyOf, keys);
    } else {
      var init := keys[..|keys| - 1];
      var k := keys[|keys| - 1];
      assert keys == init + [k];
      assert Distinct(init);
      assert k !in init;
      SumTotalsIsCaptured(sales, keyOf, init);
      CapturedByOneMoreKey(sales, keyOf, init, k);
    }
  }

  lemma {:induction false} ReportSums<K>(scheme: Scheme<K>, keys: seq<K>, sales: seq<Sale>, category: Option<int>)
    ensures TotalRevenue(Report(scheme, keys, sales, category)) == SumTotals(sales, scheme.keyOf, keys).revenue
    ensures TotalSales(Report(scheme, keys, sales, category)) == SumTotals(sales, scheme.keyOf, keys).units
  {
    if keys != [] {
      var init := keys[..|keys| - 1];
      ReportSums(scheme, init, sales, category);
      assert Report(scheme, keys, sales, category)[..|keys| - 1] == Report(scheme, init, sales, category);
    }
  }

  /**
   * Conservation of revenue and units: with distinct bucket keys, the records'
   * revenue and units add up to those of the sales whose key is a bucket key.
   */
  lemma ReportConservesSales<K>(scheme: Scheme<K>, keys: seq<K>, sales: seq<Sale>, category: Option<int>)
    requires Distinct(keys)
    ensures TotalRevenue(Report(scheme, keys, sales, category)) == Captured(sales, scheme.keyOf, keys).revenue
    ensures TotalSales(Report(scheme, keys, sales, category)) == Captured(sales, scheme.keyOf, keys).units
  {
    ReportSums(scheme, keys, sales, category);
    SumTotalsIsCaptured(sales, scheme.keyOf, keys);
  }

  /** When every sale's key is a bucket key, nothing is dropped: the buckets hold all sales. */
  lemma {:induction false} CapturedAll<K>(sales: seq<Sale>, keyOf: Date -> K, keys: seq<K>)
    requires forall i :: 0 <= i < |sales| ==> keyOf(sales[i].saleDate) in keys
    ensures Captured(sales, keyOf, keys) == AllSales(sales)
  {
    if sales != [] {
      CapturedAll(sales[..|sales| - 1], keyOf, keys);
    }
  }

  /** A bucket no sale falls into reports zero revenue, zero units and a zero average. */
  lemma UnmatchedBucketIsZero<K>(scheme: Scheme<K>, sales: seq<Sale>, category: Option<int>, k: K)
    requires forall i :: 0 <= i < |sales| ==> scheme.keyOf(sales[i].saleDate) != k
    ensures BucketRecord(scheme, sales, category, k).totalRevenue == 0.0
    ensures BucketRecord(scheme, sales, category, k).totalSales == 0
    ensures BucketRecord(scheme, sales, category, k).averageOrderValue == 0.0
  {
    TotalsOrders(sales, scheme.keyOf, k);
  }
}
