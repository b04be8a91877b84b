/**
 * The four read-only routes of `server/src/routes/analytics.ts`, with each database
 * query replaced by the list of records it would select.
 */
module ServerAnalytics {
  import opened Records
  import opened Seqs
  import opened Tally

  // ---------------------------------------------------------------- /summary

  /**
   * The `_sum.price` aggregate over the sold cars: null when no row is selected.
   */
  function SoldPriceAggregate(cars: seq<Car>): (r: Option<int>)
    ensures r.None? <==> CountStatus(cars, Sold) == 0
  {
    if CountStatus(cars, Sold) == 0 then None else Some(SumPrices(SoldCars(cars)))
  }

  /** The `/summary` response: four counts, `_sum.price || 0`, and the rounded average. */
  function Summary(cars: seq<Car>): (r: Tally.Summary)
    ensures r.totalInventory == |cars|
    ensures r.availableCars == CountStatus(cars, Available)
    ensures r.pendingCars == CountStatus(cars, Pending)
    ensures r.soldCars == CountStatus(cars, Sold)
    ensures r.availableCars + r.pendingCars + r.soldCars == r.totalInventory
    ensures r.totalRevenue == SumPrices(SoldCars(cars))
    ensures r.soldCars == 0 ==> r.totalRevenue == 0 && r.avgSellingPrice == 0
    ensures r.soldCars > 0 ==>
      RoundsTo(r.avgSellingPrice, r.totalRevenue, r.soldCars)
  {
    StatusCountsPartition(cars);
    var sold := CountStatus(cars, Sold);
    var totalRevenue := match SoldPriceAggregate(cars) case Some(v) => v case None => 0;
    Tally.Summary(
      |cars|,
      CountStatus(cars, Available),
      CountStatus(cars, Pending),
      sold,
      totalRevenue,
      if sold != 0 then Round(totalRevenue, sold) else 0)
  }

  // -------------------------------------------------------------- /inventory

  /** The `byStatus` record: exactly the three keys, each with its count. */
  function StatusCounts(cars: seq<Car>): (r: map<Status, nat>)
    ensures r.Keys == {Available, Pending, Sold}
    ensures r[Available] + r[Pending] + r[Sold] == |cars|
  {
    StatusCountsPartition(cars);
    map[Available := CountStatus(cars, Available), Pending := CountStatus(cars, Pending), Sold := CountStatus(cars, Sold)]
  }

  /** The `/inventory` route: one pass that counts cars per make and per status. */
  method Inventory(cars: seq<Car>) returns (byMake: map<string, nat>, byStatus: map<Status, nat>)
    ensures byMake == MakeCounts(cars)
    ensures byStatus == StatusCounts(cars)
    ensures byStatus[Available] + byStatus[Pending] + byStatus[Sold] == |cars|
  {
    byMake := map[];
    byStatus := map[Available := 0, Pending := 0, Sold := 0];
    for i := 0 to |cars|
      invariant byMake == MakeCounts(cars[..i])
      invariant byStatus == StatusCounts(cars[..i])
    {
      InventoryStepAt(cars, i);
      byMake := Bump(byMake, cars[i].make);
      byStatus := Bump(byStatus, cars[i].status);
    }
    assert cars[..|cars|] == cars;
  }

  /** One more car bumps its make and its status. */
  lemma InventoryStep(prefix: seq<Car>, c: Car)
    ensures MakeCounts(prefix + [c]) == Bump(MakeCounts(prefix), c.make)
    ensures StatusCounts(prefix + [c]) == Bump(StatusCounts(prefix), c.status)
  {
    assert (prefix + [c])[..|prefix|] == prefix;
    StatusStep(prefix, c);
  }

  lemma InventoryStepAt(cars: seq<Car>, i: nat)
    requires i < |cars|
    ensures MakeCounts(cars[..i + 1]) == Bump(MakeCounts(cars[..i]), cars[i].make)
    ensures StatusCounts(cars[..i + 1]) == Bump(StatusCounts(cars[..i]), cars[i].status)
  {
    assert cars[..i + 1] == cars[..i] + [cars[i]];
    InventoryStep(cars[..i], cars[i]);
  }

  lemma StatusStep(prefix: seq<Car>, c: Car)
    ensures StatusCounts(prefix + [c]) == Bump(StatusCounts(prefix), c.status)
  {
    var a := CountStep(prefix, c, Available);
    var p := CountStep(prefix, c, Pending);
    var s := CountStep(prefix, c, Sold);
  }

  lemma CountStep(prefix: seq<Car>, c: Car, s: Status) returns (n: nat)
    ensures n == CountStatus(prefix + [c], s)
    ensures n == CountStatus(prefix, s) + (if c.status == s then 1 else 0)
  {
    FilterAppend(prefix, [c], WithStatus(s));
    n := CountStatus(prefix + [c], s);
  }

  /** Every make's count in `/inventory` adds up to the number of cars. */
  lemma InventoryByMakeTotal(cars: seq<Car>)
    ensures MapSum(MakeCounts(cars)) == |cars|
    ensures forall m :: m in MakeCounts(cars) ==> MakeCounts(cars)[m] == |Filter(cars, WithMake(m))|
  {
    MakeCountsTotal(cars);
    forall m | m in MakeCounts(cars)
      ensures MakeCounts(cars)[m] == |Filter(cars, WithMake(m))|
    {
      MakeCountsValues(cars, m);
    }
  }

  // ------------------------------------------------------------ /time-series

  /** The query of `/time-series`: status `sold` and `soldAt` in `[from, to)`. */
  predicate SoldBetween(c: Car, from: int, to: int)
  {
    c.status == Sold && c.soldAt.Some? && from <= c.soldAt.value.at < to
  }

  function InRange(from: int, to: int): Car -> bool
  {
    (c: Car) => SoldBetween(c, from, to)
  }

  /** The rows the query selects, in store order. */
  function SoldInRange(cars: seq<Car>, from: int, to: int): seq<Car>
  {
    Filter(cars, InRange(from, to))
  }

  /** Cars sold in calendar month `m`. */
  function InMonth(m: Month): Car -> bool
  {
    (c: Car) => c.soldAt.Some? && c.soldAt.value.month == m
  }

  function MonthSales(sold: seq<Car>, m: Month): nat
  {
    |Filter(sold, InMonth(m))|
  }

  function MonthRevenue(sold: seq<Car>, m: Month): int
  {
    SumPrices(Filter(sold, InMonth(m)))
  }

  /** One month of the `/time-series` response. */
  datatype MonthRow = MonthRow(month: int, sales: nat, revenue: int, cumulative: int, avgPrice: int)

  function Revenues(rows: seq<MonthRow>): (r: seq<int>)
    ensures |r| == |rows|
    ensures forall i :: 0 <= i < |rows| ==> r[i] == rows[i].revenue
  {
    seq(|rows|, i requires 0 <= i < |rows| => rows[i].revenue)
  }

  /**
   * What the route promises about its output for the selected rows `sold`: twelve months
   * numbered 1..12, each month's count and revenue, its rounded average, and the
   * running revenue total from January up to that month.
   */
  ghost predicate IsTimeSeries(out: seq<MonthRow>, sold: seq<Car>)
  {
    && |out| == 12
    && (forall i: Month :: out[i].month == i + 1)
    && (forall i: Month :: out[i].sales == MonthSales(sold, i) && out[i].revenue == MonthRevenue(sold, i))
    && (forall i: Month :: out[i].avgPrice == AvgPrice(out[i].revenue, out[i].sales))
    && (forall i: Month :: out[i].cumulative == Sum(Revenues(out)[..i + 1]))
  }

  /** `sales ? Math.round(revenue / sales) : 0` */
  function AvgPrice(revenue: int, sales: nat): (avg: int)
    ensures sales != 0 ==> RoundsTo(avg, revenue, sales)
    ensures sales == 0 ==> avg == 0
    ensures revenue >= 0 ==> avg >= 0
  {
    if sales != 0 then Round(revenue, sales) else 0
  }

  /** One month's bucket: its number (1..12), its sale count and its revenue. */
  datatype Bucket = Bucket(month: int, sales: nat, revenue: int)

  /** The `series` array after the first loop: the sales and revenue of each month. */
  method MonthBuckets(sold: seq<Car>) returns (series: array<Bucket>)
    requires forall c :: c in sold ==> c.soldAt.Some?
    ensures fresh(series) && series.Length == 12
    ensures forall m: Month :: series[m] == Bucket(m + 1, MonthSales(sold, m), MonthRevenue(sold, m))
  {
    series := new Bucket[12](i => Bucket(i + 1, 0, 0));
    for i := 0 to |sold|
      invariant forall m: Month :: series[m] == Bucket(m + 1, MonthSales(sold[..i], m), MonthRevenue(sold[..i], m))
    {
      var s := sold[i];
      assert s in sold;
      var m := s.soldAt.value.month;
      assert sold[..i + 1] == sold[..i] + [s];
      forall k: Month
        ensures MonthSales(sold[..i + 1], k) == MonthSales(sold[..i], k) + (if k == m then 1 else 0)
        ensures MonthRevenue(sold[..i + 1], k) == MonthRevenue(sold[..i], k) + (if k == m then s.price else 0)
      {
        MonthStep(sold[..i], s, k);
      }
      series[m] := series[m].(sales := series[m].sales + 1, revenue := series[m].revenue + s.price);
    }
    assert sold[..|sold|] == sold;
  }

  /** The `/time-series` route for the year whose first and next-first instants are `from` and `to`. */
  method TimeSeries(cars: seq<Car>, from: int, to: int) returns (out: seq<MonthRow>)
    ensures IsTimeSeries(out, SoldInRange(cars, from, to))
  {
    var sold := SoldInRange(cars, from, to);
    var series := MonthBuckets(sold);
    var buckets := series[..];
    var running := 0;
    out := [];
    for i := 0 to 12
      invariant RowsThrough(out, sold, i)
      invariant running == Sum(Revenues(out))
    {
      var r := buckets[i];
      running := running + r.revenue;
      var row := MonthRow(r.month, r.sales, r.revenue, running, AvgPrice(r.revenue, r.sales));
      ExtendRows(out, sold, row);
      out := out + [row];
    }
    RowsThroughYear(out, sold);
  }

  /** Month `k` of `out` carries what the time series promises for it. */
  ghost predicate RowOk(out: seq<MonthRow>, sold: seq<Car>, k: Month)
    requires k < |out|
  {
    && out[k].month == k + 1
    && out[k].sales == MonthSales(sold, k) && out[k].revenue == MonthRevenue(sold, k)
    && out[k].avgPrice == AvgPrice(out[k].revenue, out[k].sales)
    && out[k].cumulative == Sum(Revenues(out)[..k + 1])
  }

  /** The first `n` months of the time series. */
  ghost predicate RowsThrough(out: seq<MonthRow>, sold: seq<Car>, n: nat)
  {
    n <= 12 && |out| == n && forall k: Month :: k < n ==> RowOk(out, sold, k)
  }

  /** The next month's row, with the running total so far plus its revenue, extends the series. */
  lemma ExtendRows(out: seq<MonthRow>, sold: seq<Car>, row: MonthRow)
    requires RowsThrough(out, sold, |out|) && |out| < 12
    requires row.month == |out| + 1
    requires row.sales == MonthSales(sold, |out|) && row.revenue == MonthRevenue(sold, |out|)
    requires row.avgPrice == AvgPrice(row.revenue, row.sales)
    requires row.cumulative == Sum(Revenues(out)) + row.revenue
    ensures RowsThrough(out + [row], sold, |out| + 1)
    ensures Sum(Revenues(out + [row])) == Sum(Revenues(out)) + row.revenue
  {
    var next := out + [row];
    AppendRow(out, row);
    forall k: Month | k < |next|
      ensures RowOk(next, sold, k)
    {
      if k < |out| {
        assert RowOk(out, sold, k);
        assert next[k] == out[k];
      }
    }
  }

  lemma RowsThroughYear(out: seq<MonthRow>, sold: seq<Car>)
    requires RowsThrough(out, sold, 12)
    ensures IsTimeSeries(out, sold)
  {
    forall k: Month
      ensures out[k].month == k + 1
      ensures out[k].sales == MonthSales(sold, k) && out[k].revenue == MonthRevenue(sold, k)
      ensures out[k].avgPrice == AvgPrice(out[k].revenue, out[k].sales)
      ensures out[k].cumulative == Sum(Revenues(out)[..k + 1])
    {
      assert RowOk(out, sold, k);
    }
  }

  /** Appending one month keeps the earlier running totals and extends the total. */
  lemma AppendRow(rows: seq<MonthRow>, row: MonthRow)
    ensures Sum(Revenues(rows + [row])) == Sum(Revenues(rows)) + row.revenue
    ensures forall j :: 0 <= j <= |rows| ==> Revenues(rows + [row])[..j] == Revenues(rows)[..j]
    ensures Revenues(rows + [row])[..|rows| + 1] == Revenues(rows + [row])
  {
    assert Revenues(rows + [row]) == Revenues(rows) + [row.revenue];
    SumAppend(Revenues(rows), [row.revenue]);
  }

  lemma MonthStep(prefix: seq<Car>, s: Car, k: Month)
    ensures MonthSales(prefix + [s], k) == MonthSales(prefix, k) + (if InMonth(k)(s) then 1 else 0)
    ensures MonthRevenue(prefix + [s], k) == MonthRevenue(prefix, k) + (if InMonth(k)(s) then s.price else 0)
  {
    FilterAppend(prefix, [s], InMonth(k));
    SumPricesAppend(Filter(prefix, InMonth(k)), Filter([s], InMonth(k)));
  }

  /** Sales summed over the first `k` months. */
  function SalesThrough(sold: seq<Car>, k: nat): (n: nat)
    requires k <= 12
  {
    if k == 0 then 0 else SalesThrough(sold, k - 1) + MonthSales(sold, k - 1)
  }

  /** Revenue summed over the first `k` months. */
  function RevenueThrough(sold: seq<Car>, k: nat): (total: int)
    requires k <= 12
  {
    if k == 0 then 0 else RevenueThrough(sold, k - 1) + MonthRevenue(sold, k - 1)
  }

  lemma ThroughCons(c: Car, rest: seq<Car>, k: nat)
    requires k <= 12 && c.soldAt.Some?
    ensures SalesThrough([c] + rest, k) == SalesThrough(rest, k) + (if c.soldAt.value.month < k then 1 else 0)
    ensures RevenueThrough([c] + rest, k) == RevenueThrough(rest, k) + (if c.soldAt.value.month < k then c.price else 0)
  {
    SalesThroughCons(c, rest, k);
    RevenueThroughCons(c, rest, k);
  }

  lemma {:induction false} SalesThroughCons(c: Car, rest: seq<Car>, k: nat)
    requires k <= 12 && c.soldAt.Some?
    ensures SalesThrough([c] + rest, k) == SalesThrough(rest, k) + (if c.soldAt.value.month < k then 1 else 0)
  {
    if k > 0 {
      SalesThroughCons(c, rest, k - 1);
      MonthCons(c, rest, k - 1);
      var here := if InMonth(k - 1)(c) then 1 else 0;
      var before := if c.soldAt.value.month < k - 1 then 1 else 0;
      assert (if c.soldAt.value.month < k then 1 else 0) == before + here;
      assert SalesThrough([c] + rest, k) == SalesThrough([c] + rest, k - 1) + MonthSales([c] + rest, k - 1);
    }
  }

  lemma {:induction false} RevenueThroughCons(c: Car, rest: seq<Car>, k: nat)
    requires k <= 12 && c.soldAt.Some?
    ensures RevenueThrough([c] + rest, k) == RevenueThrough(rest, k) + (if c.soldAt.value.month < k then c.price else 0)
  {
    if k > 0 {
      RevenueThroughCons(c, rest, k - 1);
      MonthCons(c, rest, k - 1);
      var here := if InMonth(k - 1)(c) then c.price else 0;
      var before := if c.soldAt.value.month < k - 1 then c.price else 0;
      assert (if c.soldAt.value.month < k then c.price else 0) == before + here;
      assert RevenueThrough([c] + rest, k) == RevenueThrough([c] + rest, k - 1) + MonthRevenue([c] + rest, k - 1);
    }
  }

  lemma MonthCons(c: Car, rest: seq<Car>, k: Month)
    ensures MonthSales([c] + rest, k) == MonthSales(rest, k) + (if InMonth(k)(c) then 1 else 0)
    ensures MonthRevenue([c] + rest, k) == MonthRevenue(rest, k) + (if InMonth(k)(c) then c.price else 0)
  {
    FilterAppend([c], rest, InMonth(k));
    SumPricesAppend(Filter([c], InMonth(k)), Filter(rest, InMonth(k)));
  }

  lemma {:induction false} ThroughNil(k: nat)
    requires k <= 12
    ensures SalesThrough([], k) == 0 && RevenueThrough([], k) == 0
  {
    if k > 0 {
      ThroughNil(k - 1);
    }
  }

  /** Every selected row lands in exactly one of the twelve months. */
  lemma {:induction false} MonthsPartition(sold: seq<Car>)
    requires forall c :: c in sold ==> c.soldAt.Some?
    ensures SalesThrough(sold, 12) == |sold|
    ensures RevenueThrough(sold, 12) == SumPrices(sold)
  {
    if sold == [] {
      ThroughNil(12);
    } else {
      MonthsPartition(sold[1..]);
      assert sold == [sold[0]] + sold[1..];
      ThroughCons(sold[0], sold[1..], 12);
      assert sold[0].soldAt.value.month < 12;
    }
  }

  /** Sales summed over a list of months. */
  function TotalSales(rows: seq<MonthRow>): (n: nat)
  {
    if rows == [] then 0 else TotalSales(rows[..|rows| - 1]) + rows[|rows| - 1].sales
  }

  lemma {:induction false} TimeSeriesPrefix(out: seq<MonthRow>, sold: seq<Car>, k: nat)
    requires IsTimeSeries(out, sold) && k <= 12
    ensures TotalSales(out[..k]) == SalesThrough(sold, k)
    ensures Sum(Revenues(out)[..k]) == RevenueThrough(sold, k)
  {
    if k > 0 {
      TimeSeriesPrefix(out, sold, k - 1);
      assert out[..k][..k - 1] == out[..k - 1];
      SumPrefixStep(Revenues(out), k - 1);
    }
  }

  /**
   * Over the twelve months, the sales add up to the number of selected rows, and
   * December's running total is the year's revenue.
   */
  lemma TimeSeriesTotals(cars: seq<Car>, from: int, to: int, out: seq<MonthRow>)
    requires IsTimeSeries(out, SoldInRange(cars, from, to))
    ensures TotalSales(out) == |SoldInRange(cars, from, to)|
    ensures out[11].cumulative == SumPrices(SoldInRange(cars, from, to))
  {
    var sold := SoldInRange(cars, from, to);
    MonthsPartition(sold);
    TimeSeriesPrefix(out, sold, 12);
    assert out[..12] == out;
  }

  // ------------------------------------------------------------ /age-buckets

  const DayMs := 1000 * 60 * 60 * 24

  /** Whole days since creation, `Math.floor((now - createdAt) / 86400000)`. */
  function AgeDays(now: int, createdAt: int): (d: int)
    ensures d * DayMs <= now - createdAt < (d + 1) * DayMs
  {
    (now - createdAt) / DayMs
  }

  datatype AgeBucket = Under30 | From30To60 | Over60

  /** The bucket of an age in days. */
  function BucketOf(days: int): (b: AgeBucket)
    ensures b == Under30 <==> days < 30
    ensures b == From30To60 <==> 30 <= days < 60
    ensures b == Over60 <==> days >= 60
  {
    if days < 30 then Under30 else if days < 60 then From30To60 else Over60
  }

  function InAgeBucket(now: int, b: AgeBucket): Car -> bool
  {
    (c: Car) => BucketOf(AgeDays(now, c.createdAt)) == b
  }

  /** Available cars whose age falls in bucket `b`. */
  function CountAge(cars: seq<Car>, now: int, b: AgeBucket): nat
  {
    |Filter(Filter(cars, WithStatus(Available)), InAgeBucket(now, b))|
  }

  /** The `/age-buckets` response: `{ "<30", "30-60", "60+" }`. */
  datatype AgeCounts = AgeCounts(under30: nat, from30to60: nat, over60: nat)

  /** One more car adds one to its own bucket when it is available, and nothing elsewhere. */
  lemma AgeStep(prefix: seq<Car>, c: Car, now: int, b: AgeBucket)
    ensures CountAge(prefix + [c], now, b)
         == CountAge(prefix, now, b) + (if c.status == Available && BucketOf(AgeDays(now, c.createdAt)) == b then 1 else 0)
  {
    FilterAppend(prefix, [c], WithStatus(Available));
    FilterAppend(Filter(prefix, WithStatus(Available)), Filter([c], WithStatus(Available)), InAgeBucket(now, b));
  }

  /** The `/age-buckets` route: one pass over the available cars at instant `now`. */
  method AgeBuckets(cars: seq<Car>, now: int) returns (counts: AgeCounts)
    ensures counts.under30 == CountAge(cars, now, Under30)
    ensures counts.from30to60 == CountAge(cars, now, From30To60)
    ensures counts.over60 == CountAge(cars, now, Over60)
    ensures counts.under30 + counts.from30to60 + counts.over60 == CountStatus(cars, Available)
  {
    counts := AgeCounts(0, 0, 0);
    for i := 0 to |cars|
      invariant counts == AgeCounts(CountAge(cars[..i], now, Under30), CountAge(cars[..i], now, From30To60),
                                    CountAge(cars[..i], now, Over60))
    {
      var c := cars[i];
      assert cars[..i + 1] == cars[..i] + [c];
      AgeStep(cars[..i], c, now, Under30);
      AgeStep(cars[..i], c, now, From30To60);
      AgeStep(cars[..i], c, now, Over60);
      if c.status != Available {
        continue;
      }
      var days := AgeDays(now, c.createdAt);
      if days < 30 {
        counts := counts.(under30 := counts.under30 + 1);
      } else if days < 60 {
        counts := counts.(from30to60 := counts.from30to60 + 1);
      } else {
        counts := counts.(over60 := counts.over60 + 1);
      }
    }
    assert cars[..|cars|] == cars;
    AgeBucketsPartition(Filter(cars, WithStatus(Available)), now);
  }

  /** The three age buckets partition any list of cars. */
  lemma {:induction false} AgeBucketsPartition(cars: seq<Car>, now: int)
    ensures |Filter(cars, InAgeBucket(now, Under30))| + |Filter(cars, InAgeBucket(now, From30To60))|
          + |Filter(cars, InAgeBucket(now, Over60))| == |cars|
  {
    if cars != [] {
      AgeBucketsPartition(cars[1..], now);
    }
  }
}
