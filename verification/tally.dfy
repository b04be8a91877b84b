/**
 * Counts, sums, histograms and the rounding rule shared by the server's analytics
 * routes and the browser's analytics view.
 */
module Tally {
  import opened Records
  import opened Seqs

  /** The filter callback `car => car.status === s`. */
  function WithStatus(s: Status): Car -> bool
  {
    (c: Car) => c.status == s
  }

  /** The filter callback `car => car.make === m`. */
  function WithMake(m: string): Car -> bool
  {
    (c: Car) => c.make == m
  }

  /** Number of cars with status `s`. */
  function CountStatus(cars: seq<Car>, s: Status): (n: nat)
  {
    |Filter(cars, WithStatus(s))|
  }

  /** The cars whose status is `sold`, in list order. */
  function SoldCars(cars: seq<Car>): seq<Car>
  {
    Filter(cars, WithStatus(Sold))
  }

  /** Sum of `price` over a list of cars. */
  function SumPrices(cars: seq<Car>): int
  {
    if cars == [] then 0 else cars[0].price + SumPrices(cars[1..])
  }

  lemma {:induction false} SumPricesAppend(a: seq<Car>, b: seq<Car>)
    ensures SumPrices(a + b) == SumPrices(a) + SumPrices(b)
  {
    if a == [] {
      assert a + b == b;
    } else {
      assert (a + b)[1..] == a[1..] + b;
      SumPricesAppend(a[1..], b);
    }
  }

  /** Every car has exactly one of the three statuses, so the three counts partition the list. */
  lemma {:induction false} StatusCountsPartition(cars: seq<Car>)
    ensures CountStatus(cars, Available) + CountStatus(cars, Pending) + CountStatus(cars, Sold) == |cars|
  {
    if cars != [] {
      StatusCountsPartition(cars[1..]);
      assert CountStatus(cars, cars[0].status) == CountStatus(cars[1..], cars[0].status) + 1;
    }
  }

  /**
   * `Math.round(r / n)` for a positive divisor: the nearest integer to r/n,
   * halves rounded up, i.e. floor(r/n + 1/2).
   */
  function Round(r: int, n: int): (q: int)
    requires n > 0
    ensures RoundsTo(q, r, n)
    ensures r >= 0 ==> q >= 0
  {
    (2 * r + n) / (2 * n)
  }

  /** `q` is the integer nearest to r/n, halves rounded up: q <= r/n + 1/2 < q + 1. */
  predicate RoundsTo(q: int, r: int, n: int)
  {
    2 * n * q <= 2 * r + n < 2 * n * q + 2 * n
  }

  /** Only one integer is nearest, so `Math.round` has a single possible answer. */
  lemma RoundsToUnique(q1: int, q2: int, r: int, n: int)
    requires n > 0 && RoundsTo(q1, r, n) && RoundsTo(q2, r, n)
    ensures q1 == q2
  {
    if q1 < q2 {
      MulMonotone(2 * n, q1 + 1, q2);
    } else if q2 < q1 {
      MulMonotone(2 * n, q2 + 1, q1);
    }
  }

  lemma MulMonotone(a: int, x: int, y: int)
    requires a > 0 && x <= y
    ensures a * x <= a * y
  {
  }

  /** The fields of the summary view, shared by the server route and the dashboard. */
  datatype Summary = Summary(
    totalInventory: nat,
    availableCars: nat,
    pendingCars: nat,
    soldCars: nat,
    totalRevenue: int,
    avgSellingPrice: int)

  /** `(acc[k] || 0) + 1` stored back under `k`. */
  function Bump<K>(h: map<K, nat>, k: K): (r: map<K, nat>)
    ensures r.Keys == h.Keys + {k}
  {
    h[k := (if k in h then h[k] else 0) + 1]
  }

  /** The `{ make: count }` record built by folding over the cars from left to right. */
  function MakeCounts(cars: seq<Car>): (h: map<string, nat>)
    ensures forall m :: m in h ==> 1 <= h[m] <= |cars|
  {
    if cars == [] then map[] else Bump(MakeCounts(cars[..|cars| - 1]), cars[|cars| - 1].make)
  }

  /** The keys of the histogram are exactly the makes that occur in the list. */
  lemma {:induction false} MakeCountsKeys(cars: seq<Car>)
    ensures MakeCounts(cars).Keys == set c | c in cars :: c.make
  {
    if cars != [] {
      var init, last := cars[..|cars| - 1], cars[|cars| - 1];
      MakeCountsKeys(init);
      assert cars == init + [last];
      assert (set c | c in cars :: c.make) == (set c | c in init :: c.make) + {last.make};
    }
  }

  /** Each value of the histogram counts the cars of that make. */
  lemma {:induction false} MakeCountsValues(cars: seq<Car>, m: string)
    requires m in MakeCounts(cars)
    ensures MakeCounts(cars)[m] == |Filter(cars, WithMake(m))|
  {
    var init, last := cars[..|cars| - 1], cars[|cars| - 1];
    assert cars == init + [last];
    FilterAppend(init, [last], WithMake(m));
    if m in MakeCounts(init) {
      MakeCountsValues(init, m);
    } else {
      MakeCountsKeys(init);
      assert forall c :: c in init ==> c.make != m;
      FilterKeepsNone(init, WithMake(m));
    }
  }

  /** The sum of the values of a map. */
  ghost function MapSum<K>(m: map<K, nat>): nat
    decreases |m|
  {
    if |m| == 0 then 0
    else
      var k :| k in m;
      m[k] + MapSum(m - {k})
  }

  lemma MapSumPick<K>(m: map<K, nat>) returns (k: K)
    requires |m| != 0
    ensures k in m && MapSum(m) == m[k] + MapSum(m - {k})
  {
    k :| k in m && MapSum(m) == m[k] + MapSum(m - {k});
  }

  /** Whichever key the sum starts from, it is the same. */
  lemma {:induction false} MapSumRemove<K>(m: map<K, nat>, k: K)
    requires k in m
    ensures MapSum(m) == m[k] + MapSum(m - {k})
    decreases |m|
  {
    var j := MapSumPick(m);
    if j != k {
      var mj, mk := m - {j}, m - {k};
      assert mj.Keys == m.Keys - {j} && mk.Keys == m.Keys - {k};
      assert |mj| < |m| && |mk| < |m|;
      MapSumRemove(mj, k);
      MapSumRemove(mk, j);
      assert mj - {k} == mk - {j};
    }
  }

  lemma MapSumBump<K>(h: map<K, nat>, k: K)
    ensures MapSum(Bump(h, k)) == MapSum(h) + 1
  {
    var b := Bump(h, k);
    MapSumRemove(b, k);
    if k in h {
      MapSumRemove(h, k);
      assert b - {k} == h - {k};
    } else {
      assert b - {k} == h;
    }
  }

  /** The counts of the make histogram add up to the number of cars. */
  lemma {:induction false} MakeCountsTotal(cars: seq<Car>)
    ensures MapSum(MakeCounts(cars)) == |cars|
  {
    if cars != [] {
      MakeCountsTotal(cars[..|cars| - 1]);
      MapSumBump(MakeCounts(cars[..|cars| - 1]), cars[|cars| - 1].make);
    }
  }
}
