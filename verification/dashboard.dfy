/**
 * `src/components/CarInventoryDashboard.tsx`: the status badge, the search and filter
 * predicate, the sorted list of makes, and the updates the handlers make to the `cars`
 * list once the server has answered.
 */
module Dashboard {
  import opened Records
  import opened Text
  import opened Seqs
  import Tally

  // ------------------------------------------------------------------ badges

  datatype BadgeVariant = Success | Warning | Danger | Default

  /** `statusToBadgeVariant`; the `default` branch is unreachable for a well-typed status. */
  function StatusToBadgeVariant(s: Status): (v: BadgeVariant)
    ensures v != Default
    ensures v == Success <==> s == Available
    ensures v == Warning <==> s == Pending
    ensures v == Danger <==> s == Sold
  {
    match s
    case Available => Success
    case Pending => Warning
    case Sold => Danger
  }

  // -------------------------------------------------------------- filtering

  /** The search half of the filter: the query against make, model, year and VIN. */
  predicate MatchesSearch(c: Car, term: string)
  {
    var q := LowerStr(term);
    || Contains(LowerStr(c.make), q)
    || Contains(LowerStr(c.model), q)
    || Contains(IntToString(c.year), term)
    || Contains(LowerStr(c.vin), q)
  }

  /** `statusFilter === "all" || car.status === statusFilter` */
  predicate MatchesStatus(c: Car, statusFilter: string)
  {
    statusFilter == "all" || StatusName(c.status) == statusFilter
  }

  /** `makeFilter === "all" || car.make === makeFilter` */
  predicate MatchesMake(c: Car, makeFilter: string)
  {
    makeFilter == "all" || c.make == makeFilter
  }

  function Shown(term: string, statusFilter: string, makeFilter: string): Car -> bool
  {
    (c: Car) => MatchesSearch(c, term) && MatchesStatus(c, statusFilter) && MatchesMake(c, makeFilter)
  }

  /** `filteredCars`: the cars that match the search and both filters, in list order. */
  function FilteredCars(cars: seq<Car>, term: string, statusFilter: string, makeFilter: string): (r: seq<Car>)
    ensures |r| <= |cars|
    ensures forall c :: c in r <==>
      c in cars && MatchesSearch(c, term) && MatchesStatus(c, statusFilter) && MatchesMake(c, makeFilter)
  {
    Filter(cars, Shown(term, statusFilter, makeFilter))
  }

  /** Filtering keeps the order of the list: the result is a subsequence of it. */
  lemma FilteredKeepsOrder(cars: seq<Car>, term: string, statusFilter: string, makeFilter: string)
    ensures IsSubsequence(FilteredCars(cars, term, statusFilter, makeFilter), cars)
  {
    FilterIsSubsequence(cars, Shown(term, statusFilter, makeFilter));
  }

  /** The empty text occurs in every text. */
  lemma ContainsEmpty(s: string)
    ensures Contains(s, "")
  {
    assert "" <= s[0..];
  }

  /** With an empty search and both filters at "all", every car is shown, in order. */
  lemma NoFilterShowsAll(cars: seq<Car>)
    ensures FilteredCars(cars, "", "all", "all") == cars
  {
    forall c | c in cars
      ensures Shown("", "all", "all")(c)
    {
      assert LowerStr("") == "";
      ContainsEmpty(LowerStr(c.make));
    }
    FilterKeepsAll(cars, Shown("", "all", "all"));
  }

  // ------------------------------------------------------------------ makes

  /** Strictly increasing in the default sort order, hence without duplicates. */
  ghost predicate StrictlySorted(s: seq<string>)
  {
    forall i, j :: 0 <= i < j < |s| ==> StrLess(s[i], s[j])
  }

  lemma SortedCons(x: string, t: seq<string>)
    requires StrictlySorted(t)
    requires forall y :: y in t ==> StrLess(x, y)
    ensures StrictlySorted([x] + t)
  {
    var r := [x] + t;
    forall i, j | 0 <= i < j < |r|
      ensures StrLess(r[i], r[j])
    {
      assert r[j] == t[j - 1];
      if i > 0 {
        assert r[i] == t[i - 1];
      } else {
        assert r[j] in t;
      }
    }
  }

  /** The elements after the head of a strictly sorted list all follow the head. */
  lemma SortedHead(s: seq<string>)
    requires StrictlySorted(s) && s != []
    ensures StrictlySorted(s[1..])
    ensures forall y :: y in s[1..] ==> StrLess(s[0], y)
  {
    forall y | y in s[1..]
      ensures StrLess(s[0], y)
    {
      var i :| 0 <= i < |s[1..]| && s[1..][i] == y;
      assert s[i + 1] == y;
    }
  }

  /** `m` added to a strictly sorted list, unless it is already there. */
  function InsertSorted(s: seq<string>, m: string): (r: seq<string>)
    requires StrictlySorted(s)
    ensures StrictlySorted(r)
    ensures forall x :: x in r <==> x in s || x == m
  {
    if s == [] then
      [m]
    else if m == s[0] then
      s
    else if StrLess(m, s[0]) then
      SortedHead(s);
      forall y | y in s ensures StrLess(m, y) {
        if y != s[0] {
          StrLessTransitive(m, s[0], y);
        }
      }
      SortedCons(m, s);
      [m] + s
    else
      StrLessTotal(m, s[0]);
      SortedHead(s);
      var t := InsertSorted(s[1..], m);
      assert s == [s[0]] + s[1..];
      SortedCons(s[0], t);
      [s[0]] + t
  }

  /** `Array.from(new Set(cars.map((c) => c.make))).sort()` */
  function UniqueMakes(cars: seq<Car>): (r: seq<string>)
    ensures StrictlySorted(r)
    ensures forall m :: m in r <==> exists c :: c in cars && c.make == m
  {
    if cars == [] then
      []
    else
      var r := InsertSorted(UniqueMakes(cars[1..]), cars[0].make);
      assert forall c :: c in cars <==> c == cars[0] || c in cars[1..];
      r
  }

  /** A strictly sorted list has no duplicates. */
  lemma SortedDistinct(s: seq<string>)
    requires StrictlySorted(s)
    ensures forall i, j :: 0 <= i < j < |s| ==> s[i] != s[j]
  {
    forall i, j | 0 <= i < j < |s|
      ensures s[i] != s[j]
    {
      StrLessIrreflexive(s[i]);
    }
  }

  /** Two strictly sorted lists with the same elements are the same list. */
  lemma {:induction false} SortedUnique(a: seq<string>, b: seq<string>)
    requires StrictlySorted(a) && StrictlySorted(b)
    requires forall x :: x in a <==> x in b
    ensures a == b
    decreases |a|
  {
    SortedDistinct(a);
    SortedDistinct(b);
    DistinctCard(a);
    DistinctCard(b);
    assert (set x | x in a) == (set x | x in b);
    if a != [] {
      SortedHead(a);
      SortedHead(b);
      assert a == [a[0]] + a[1..] && b == [b[0]] + b[1..];
      if a[0] != b[0] {
        assert a[0] in b && b[0] in a;
        assert a[0] in b[1..] && b[0] in a[1..];
        StrLessTransitive(a[0], b[0], a[0]);
        StrLessIrreflexive(a[0]);
        assert false;
      }
      forall x
        ensures x in a[1..] <==> x in b[1..]
      {
        StrLessIrreflexive(x);
        if x in a[1..] {
          assert x in a && StrLess(b[0], x);
          assert x in b && x != b[0];
        }
        if x in b[1..] {
          assert x in b && StrLess(a[0], x);
          assert x in a && x != a[0];
        }
      }
      SortedUnique(a[1..], b[1..]);
      assert a == [a[0]] + a[1..] && b == [b[0]] + b[1..];
    }
  }

  /** The make list is the key set of the make histogram, in sort order. */
  lemma UniqueMakesAreHistogramKeys(cars: seq<Car>)
    ensures (set m | m in UniqueMakes(cars)) == Tally.MakeCounts(cars).Keys
    ensures |UniqueMakes(cars)| == |Tally.MakeCounts(cars).Keys|
  {
    var r := UniqueMakes(cars);
    Tally.MakeCountsKeys(cars);
    assert (set m | m in r) == (set c | c in cars :: c.make);
    SortedDistinct(r);
    DistinctCard(r);
  }

  /** A list without duplicates has as many elements as its set. */
  lemma {:induction false} DistinctCard(s: seq<string>)
    requires forall i, j :: 0 <= i < j < |s| ==> s[i] != s[j]
    ensures |set m | m in s| == |s|
  {
    if s != [] {
      DistinctCard(s[1..]);
      assert (set m | m in s) == {s[0]} + (set m | m in s[1..]);
      assert s[0] !in s[1..];
    }
  }

  // ------------------------------------------------------------ list updates

  /** `prev.map((c) => (c.id === id ? updated : c))` */
  function ReplaceById(s: seq<Car>, id: Id, updated: Car): (r: seq<Car>)
    ensures |r| == |s|
    ensures forall i :: 0 <= i < |s| ==> r[i] == (if s[i].id == id then updated else s[i])
  {
    if s == [] then [] else [if s[0].id == id then updated else s[0]] + ReplaceById(s[1..], id, updated)
  }

  /** Replacing a record by one with the same id keeps the ids, so distinct ids stay distinct. */
  lemma ReplaceKeepsIds(s: seq<Car>, id: Id, updated: Car)
    requires updated.id == id
    ensures forall i :: 0 <= i < |s| ==> ReplaceById(s, id, updated)[i].id == s[i].id
    ensures DistinctIds(s) ==> DistinctIds(ReplaceById(s, id, updated))
  {
  }

  /** Replacing an id the list does not hold changes nothing. */
  lemma ReplaceAbsent(s: seq<Car>, id: Id, updated: Car)
    requires forall c :: c in s ==> c.id != id
    ensures ReplaceById(s, id, updated) == s
  {
    var r := ReplaceById(s, id, updated);
    assert forall i :: 0 <= i < |s| ==> r[i] == s[i] by {
      forall i | 0 <= i < |s| ensures r[i] == s[i] {
        assert s[i] in s;
      }
    }
  }

  function WithoutId(id: Id): Car -> bool
  {
    (c: Car) => c.id != id
  }

  /** `prev.filter((c) => c.id !== id)` */
  function RemoveById(s: seq<Car>, id: Id): (r: seq<Car>)
    ensures forall c :: c in r <==> c in s && c.id != id
    ensures |r| <= |s|
  {
    Filter(s, WithoutId(id))
  }

  /** Every record with another id is kept as often as it occurs, and none with `id` is. */
  lemma RemoveByIdMultiset(s: seq<Car>, id: Id)
    ensures forall c :: multiset(RemoveById(s, id))[c] == if c.id != id then multiset(s)[c] else 0
  {
    FilterMultiset(s, WithoutId(id));
  }

  /** The records that remain keep their relative order. */
  lemma RemoveKeepsOrder(s: seq<Car>, id: Id)
    ensures IsSubsequence(RemoveById(s, id), s)
  {
    FilterIsSubsequence(s, WithoutId(id));
  }

  /** Removing the id of a record just put in front, which the rest of the list lacks, restores the list. */
  lemma RemoveUndoesAdd(s: seq<Car>, c: Car)
    requires forall x :: x in s ==> x.id != c.id
    ensures RemoveById([c] + s, c.id) == s
  {
    FilterAppend([c], s, WithoutId(c.id));
    FilterKeepsAll(s, WithoutId(c.id));
  }

  // ------------------------------------------------------------------ state

  /** What an API call reports back: the server's answer, or the error's message. */
  datatype ApiResult<T> = Done(value: T) | Failed(message: string)

  /** `alert(e.message || fallback)`: the text shown when a call fails. */
  function AlertText(message: string, fallback: string): (t: string)
    ensures fallback != "" ==> t != ""
    ensures message != "" ==> t == message
    ensures message == "" ==> t == fallback
  {
    if message == "" then fallback else message
  }

  /** The list state of the dashboard and the form state the handlers close. */
  class DashboardState {
    var cars: seq<Car>
    var editingCar: Option<Car>
    var showCarForm: bool

    constructor (initial: seq<Car>)
      ensures cars == initial && editingCar == None && !showCarForm
    {
      cars := initial;
      editingCar := None;
      showCarForm := false;
    }

    /** `handleAddCar`, given how `createCarApi` answered. */
    method HandleAddCar(result: ApiResult<Car>) returns (alert: Option<string>)
      modifies this
      ensures result.Done? ==>
        && cars == [result.value] + old(cars)
        && |cars| == |old(cars)| + 1
        && !showCarForm && editingCar == old(editingCar) && alert == None
      ensures result.Failed? ==> unchanged(this) && alert == Some(AlertText(result.message, "Failed to create car"))
    {
      match result
      case Done(created) =>
        cars := [created] + cars;
        showCarForm := false;
        alert := None;
      case Failed(message) =>
        alert := Some(AlertText(message, "Failed to create car"));
    }

    /** `handleEditCar`, given how `updateCarApi` answered; nothing happens when no car is being edited. */
    method HandleEditCar(result: ApiResult<Car>) returns (alert: Option<string>)
      modifies this
      ensures old(editingCar).None? ==> unchanged(this) && alert == None
      ensures old(editingCar).Some? && result.Done? ==>
        && cars == ReplaceById(old(cars), old(editingCar).value.id, result.value)
        && editingCar == None && !showCarForm && alert == None
      ensures old(editingCar).Some? && result.Failed? ==>
        unchanged(this) && alert == Some(AlertText(result.message, "Failed to update car"))
    {
      if editingCar.None? {
        return None;
      }
      match result
      case Done(updated) =>
        cars := ReplaceById(cars, editingCar.value.id, updated);
        editingCar := None;
        showCarForm := false;
        alert := None;
      case Failed(message) =>
        alert := Some(AlertText(message, "Failed to update car"));
    }

    /** `handleDeleteCar(id)`, given how `deleteCarApi` answered. */
    method HandleDeleteCar(id: Id, result: ApiResult<()>) returns (alert: Option<string>)
      modifies this
      ensures result.Done? ==>
        cars == RemoveById(old(cars), id) && editingCar == old(editingCar)
        && showCarForm == old(showCarForm) && alert == None
      ensures result.Failed? ==> unchanged(this) && alert == Some(AlertText(result.message, "Failed to delete car"))
    {
      match result
      case Done(_) =>
        cars := RemoveById(cars, id);
        alert := None;
      case Failed(message) =>
        alert := Some(AlertText(message, "Failed to delete car"));
    }
  }
}
