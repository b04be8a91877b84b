/**
 * `src/components/AdminAnalytics.tsx`: the metrics the analytics view derives from the
 * `cars` list, each a `filter`/`reduce`/`slice` over it. A `reduce` is a left fold and is
 * written as one; lemmas tie each fold to the shared definitions in `Tally`.
 */
module AdminAnalytics {
  import opened Records
  import opened Seqs
  import opened Tally

  // ------------------------------------------------------------- key metrics

  /** `reduce((sum, car) => sum + car.price, acc)` */
  function ReducePrices(acc: int, cars: seq<Car>): (total: int)
    decreases cars
  {
    if cars == [] then acc else ReducePrices(acc + cars[0].price, cars[1..])
  }

  /** The left fold over prices adds the same total as the sum. */
  lemma {:induction false} ReducePricesSum(acc: int, cars: seq<Car>)
    ensures ReducePrices(acc, cars) == acc + SumPrices(cars)
    decreases cars
  {
    if cars != [] {
      ReducePricesSum(acc + cars[0].price, cars[1..]);
    }
  }

  /** The four counts, the revenue of the sold cars and their rounded average price. */
  function KeyMetrics(cars: seq<Car>): (r: Summary)
    ensures r.totalInventory == |cars|
    ensures r.soldCars == CountStatus(cars, Sold)
    ensures r.availableCars == CountStatus(cars, Available)
    ensures r.pendingCars == CountStatus(cars, Pending)
    ensures r.availableCars + r.pendingCars + r.soldCars == r.totalInventory
    ensures r.totalRevenue == SumPrices(SoldCars(cars))
    ensures r.soldCars == 0 ==> r.totalRevenue == 0 && r.avgSellingPrice == 0
    ensures r.soldCars > 0 ==>
      RoundsTo(r.avgSellingPrice, r.totalRevenue, r.soldCars)
  {
    StatusCountsPartition(cars);
    ReducePricesSum(0, SoldCars(cars));
    var soldCars := |Filter(cars, WithStatus(Sold))|;
    var totalRevenue := ReducePrices(0, Filter(cars, WithStatus(Sold)));
    Summary(
      |cars|,
      |Filter(cars, WithStatus(Available))|,
      |Filter(cars, WithStatus(Pending))|,
      soldCars,
      totalRevenue,
      if soldCars > 0 then Round(totalRevenue, soldCars) else 0)
  }

  // ------------------------------------------------------------- status pie

  datatype StatusSlice = StatusSlice(name: string, value: nat, color: string)

  /** `statusData`: three slices, in the order Available, Sold, Pending. */
  function StatusData(cars: seq<Car>): (r: seq<StatusSlice>)
    ensures |r| == 3
    ensures r[0].name == "Available" && r[1].name == "Sold" && r[2].name == "Pending"
    ensures r[0].value == CountStatus(cars, Available)
    ensures r[1].value == CountStatus(cars, Sold)
    ensures r[2].value == CountStatus(cars, Pending)
    ensures r[0].value + r[1].value + r[2].value == |cars|
  {
    var m := KeyMetrics(cars);
    [ StatusSlice("Available", m.availableCars, "#10b981"),
      StatusSlice("Sold", m.soldCars, "#ef4444"),
      StatusSlice("Pending", m.pendingCars, "#f59e0b") ]
  }

  // ------------------------------------------------------------ make charts

  /** `reduce((acc, car) => { acc[car.make] = (acc[car.make] || 0) + 1; return acc; }, acc)` */
  function CountInto(acc: map<string, nat>, cars: seq<Car>): (h: map<string, nat>)
    decreases cars
  {
    if cars == [] then acc else CountInto(Bump(acc, cars[0].make), cars[1..])
  }

  /** Folding the rest of a list into the histogram of its start gives the histogram of the whole. */
  lemma {:induction false} CountIntoMakeCounts(prefix: seq<Car>, rest: seq<Car>)
    ensures CountInto(MakeCounts(prefix), rest) == MakeCounts(prefix + rest)
    decreases rest
  {
    if rest == [] {
      assert prefix + rest == prefix;
    } else {
      var p := prefix + [rest[0]];
      assert p[..|p| - 1] == prefix;
      assert MakeCounts(p) == Bump(MakeCounts(prefix), rest[0].make);
      CountIntoMakeCounts(p, rest[1..]);
      assert p + rest[1..] == prefix + rest;
    }
  }

  /** `inventoryByMake`: every make with the number of cars of that make. */
  function InventoryByMake(cars: seq<Car>): (r: map<string, nat>)
    ensures r.Keys == set c | c in cars :: c.make
    ensures forall m :: m in r ==> r[m] == |Filter(cars, WithMake(m))|
    ensures MapSum(r) == |cars|
  {
    CountIntoMakeCounts([], cars);
    assert [] + cars == cars;
    MakeCountsKeys(cars);
    MakeCountsTotal(cars);
    forall m | m in MakeCounts(cars)
      ensures MakeCounts(cars)[m] == |Filter(cars, WithMake(m))|
    {
      MakeCountsValues(cars, m);
    }
    CountInto(map[], cars)
  }

  /** `salesByMake`: the same histogram over the sold cars only. */
  function SalesByMake(cars: seq<Car>): (r: map<string, nat>)
    ensures r.Keys == set c | c in cars && c.status == Sold :: c.make
    ensures forall m :: m in r ==> r[m] == |Filter(SoldCars(cars), WithMake(m))|
    ensures MapSum(r) == CountStatus(cars, Sold)
  {
    var sold := Filter(cars, WithStatus(Sold));
    assert (set c | c in sold :: c.make) == set c | c in cars && c.status == Sold :: c.make;
    InventoryByMake(sold)
  }

  // ------------------------------------------------------- cumulative revenue

  /** A month of the sales chart data. */
  datatype SalesPoint = SalesPoint(month: string, sales: int, revenue: int, avgPrice: int, thisYear: int, lastYear: int)

  /** The same month with its running revenue total added. */
  datatype CumulativePoint =
    CumulativePoint(month: string, sales: int, revenue: int, avgPrice: int, thisYear: int, lastYear: int, cumulative: int)

  function RevenueSeq(data: seq<SalesPoint>): (r: seq<int>)
    ensures |r| == |data|
    ensures forall i :: 0 <= i < |data| ==> r[i] == data[i].revenue
  {
    if data == [] then [] else [data[0].revenue] + RevenueSeq(data[1..])
  }

  /** `reduce((sum, data) => sum + data.revenue, acc)` */
  function ReduceRevenue(acc: int, data: seq<SalesPoint>): (total: int)
    decreases data
  {
    if data == [] then acc else ReduceRevenue(acc + data[0].revenue, data[1..])
  }

  lemma {:induction false} ReduceRevenueSum(acc: int, data: seq<SalesPoint>)
    ensures ReduceRevenue(acc, data) == acc + Sum(RevenueSeq(data))
    decreases data
  {
    if data != [] {
      ReduceRevenueSum(acc + data[0].revenue, data[1..]);
      assert RevenueSeq(data) == [data[0].revenue] + RevenueSeq(data[1..]);
    }
  }

  /** `{ ...item, cumulative }` */
  function WithCumulative(p: SalesPoint, cumulative: int): (q: CumulativePoint)
  {
    CumulativePoint(p.month, p.sales, p.revenue, p.avgPrice, p.thisYear, p.lastYear, cumulative)
  }

  /** `cumulativeRevenueData`: each month with the revenue of it and of every month before it. */
  function CumulativeRevenue(data: seq<SalesPoint>): (r: seq<CumulativePoint>)
    ensures |r| == |data|
    ensures forall i :: 0 <= i < |data| ==>
      && r[i].month == data[i].month && r[i].sales == data[i].sales && r[i].revenue == data[i].revenue
      && r[i].avgPrice == data[i].avgPrice && r[i].thisYear == data[i].thisYear && r[i].lastYear == data[i].lastYear
    ensures forall i :: 0 <= i < |data| ==> r[i].cumulative == Sum(RevenueSeq(data)[..i + 1])
  {
    var r := seq(|data|, i requires 0 <= i < |data| => WithCumulative(data[i], ReduceRevenue(0, data[..i + 1])));
    forall i | 0 <= i < |data|
      ensures r[i].cumulative == Sum(RevenueSeq(data)[..i + 1])
    {
      ReduceRevenueSum(0, data[..i + 1]);
      assert RevenueSeq(data[..i + 1]) == RevenueSeq(data)[..i + 1];
    }
    r
  }

  /** The running total starts at the first month's revenue and grows by each next month's. */
  lemma CumulativeStep(data: seq<SalesPoint>, i: nat)
    requires i < |data|
    ensures i == 0 ==> CumulativeRevenue(data)[0].cumulative == data[0].revenue
    ensures i > 0 ==>
      CumulativeRevenue(data)[i].cumulative == CumulativeRevenue(data)[i - 1].cumulative + data[i].revenue
  {
    var xs := RevenueSeq(data);
    if i == 0 {
      assert xs[..1] == [xs[0]];
      assert Sum(xs[..1]) == xs[0] + Sum([]);
    } else {
      SumPrefixStep(xs, i);
    }
  }

  // ------------------------------------------------------------ top sellers

  /** `slice(0, n)`, which stops at the end of a shorter list. */
  function Take<T>(s: seq<T>, n: nat): (r: seq<T>)
    ensures |r| == if n < |s| then n else |s|
    ensures r <= s
  {
    if n < |s| then s[..n] else s
  }

  /** The "Top 5 Selling Models" list: the first five sold cars, in list order. */
  function TopSellers(cars: seq<Car>): (r: seq<Car>)
    ensures |r| == if CountStatus(cars, Sold) < 5 then CountStatus(cars, Sold) else 5
    ensures r <= SoldCars(cars)
    ensures forall c :: c in r ==> c in cars && c.status == Sold
  {
    Take(Filter(cars, WithStatus(Sold)), 5)
  }

  /** The top sellers appear in the inventory in the same order. */
  lemma TopSellersKeepOrder(cars: seq<Car>)
    ensures IsSubsequence(TopSellers(cars), cars)
  {
    var sold := SoldCars(cars);
    FilterIsSubsequence(cars, WithStatus(Sold));
    PrefixSubsequence(TopSellers(cars), sold, cars);
  }

  /** A prefix of a subsequence is a subsequence. */
  lemma {:induction false} PrefixSubsequence<T(!new)>(p: seq<T>, a: seq<T>, b: seq<T>)
    requires p <= a && IsSubsequence(a, b)
    ensures IsSubsequence(p, b)
    decreases |b|
  {
    if p != [] && b != [] {
      if a[0] == b[0] && IsSubsequence(a[1..], b[1..]) {
        PrefixSubsequence(p[1..], a[1..], b[1..]);
      } else {
        PrefixSubsequence(p, a, b[1..]);
      }
    }
  }
}
