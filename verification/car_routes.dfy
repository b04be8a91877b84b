/**
 * `server/src/routes/cars.ts`: the request schema and the list, get, create, update and
 * delete routes over the car table. The table is an id-keyed map with unique VINs; the
 * database's unique-constraint and record-not-found errors become the 409 and 404 replies.
 */
module CarRoutes {
  import opened Records
  import opened Seqs

  // ------------------------------------------------------------------ schema

  /** A value in a JSON request body. Numbers with a fractional part are `JNonInteger`. */
  datatype Json = JString(s: string) | JNumber(n: int) | JNonInteger | JOther


  /** The keys of the schema. */
  datatype Key = MakeKey | ModelKey | YearKey | PriceKey | MileageKey | ColorKey | StatusKey
               | VinKey | DescriptionKey | ImageUrlKey

  /** The position of each key in the schema's declaration. */
  function KeyIndex(k: Key): (i: nat)
    ensures i < 10
  {
    match k
    case MakeKey => 0
    case ModelKey => 1
    case YearKey => 2
    case PriceKey => 3
    case MileageKey => 4
    case ColorKey => 5
    case StatusKey => 6
    case VinKey => 7
    case DescriptionKey => 8
    case ImageUrlKey => 9
  }

  /** The key declared at position `i`. */
  function KeyAt(i: nat): (k: Key)
    requires i < 10
    ensures KeyIndex(k) == i
  {
    if i == 0 then MakeKey else if i == 1 then ModelKey else if i == 2 then YearKey
    else if i == 3 then PriceKey else if i == 4 then MileageKey else if i == 5 then ColorKey
    else if i == 6 then StatusKey else if i == 7 then VinKey else if i == 8 then DescriptionKey
    else ImageUrlKey
  }

  /** The keys in declaration order, the order in which issues are reported. */
  function SchemaKeys(): (keys: seq<Key>)
    ensures |keys| == 10
  {
    seq(10, i requires 0 <= i < 10 => KeyAt(i))
  }

  /**
   * A JSON object body, by schema key: a missing key is `undefined`. Properties the
   * schema does not name are stripped by the parser and so do not appear.
   */
  type Body = map<Key, Json>

  lemma SchemaKeysListed()
    ensures forall k :: k in SchemaKeys()
  {
    forall k ensures k in SchemaKeys() {
      assert KeyAt(KeyIndex(k)) == k by {
        match k
        case _ =>
      }
      assert SchemaKeys()[KeyIndex(k)] == k;
    }
  }

  function Field(body: Body, k: Key): Option<Json>
  {
    if k in body then Some(body[k]) else None
  }

  /** `z.string().min(n)` */
  predicate IsStringOfLength(v: Option<Json>, n: nat)
  {
    v.Some? && v.value.JString? && |v.value.s| >= n
  }

  /** `z.number().int()` with a lower and an optional upper bound */
  predicate IsIntegerIn(v: Option<Json>, lo: int, hi: Option<int>)
  {
    v.Some? && v.value.JNumber? && lo <= v.value.n && (hi.Some? ==> v.value.n <= hi.value)
  }

  /**
   * The check the schema applies to one key. `isUrl` stands for `z.string().url()`,
   * whose syntax rules are not part of this model.
   */
  predicate FieldOk(body: Body, k: Key, isUrl: string -> bool)
  {
    var v := Field(body, k);
    match k
    case MakeKey | ModelKey | ColorKey => IsStringOfLength(v, 1)
    case YearKey => IsIntegerIn(v, 1886, Some(3000))
    case PriceKey | MileageKey => IsIntegerIn(v, 0, None)
    case StatusKey => StatusOf(v).Some?
    case VinKey => IsStringOfLength(v, 5)
    case DescriptionKey => v.None? || v.value.JString?
    case ImageUrlKey => v.Some? && v.value.JString? && isUrl(v.value.s)
  }

  /** `z.enum(["available", "pending", "sold"])` applied to a value. */
  function StatusOf(v: Option<Json>): Option<Status>
  {
    if v.Some? && v.value.JString? then ParseStatus(v.value.s) else None
  }

  function Fails(body: Body, isUrl: string -> bool): Key -> bool
  {
    k => !FieldOk(body, k, isUrl)
  }

  /** The validated, defaulted fields of a car. */
  datatype CarFields = CarFields(
    make: string,
    model: string,
    year: int,
    price: int,
    mileage: int,
    color: string,
    status: Status,
    vin: string,
    description: string,
    imageUrl: string)

  /** What every stored record satisfies: the schema's constraints on its fields. */
  predicate WellFormed(f: CarFields)
  {
    |f.make| >= 1 && |f.model| >= 1 && 1886 <= f.year <= 3000 && f.price >= 0
    && f.mileage >= 0 && |f.color| >= 1 && |f.vin| >= 5
  }

  datatype Parsed = Parsed(fields: CarFields) | Rejected(issues: seq<Key>)

  /** The keys whose check fails, in schema order. */
  function Issues(body: Body, isUrl: string -> bool): seq<Key>
  {
    Filter(SchemaKeys(), Fails(body, isUrl))
  }

  /** Issues are reported in the order the schema declares its keys, each at most once. */
  lemma IssuesInSchemaOrder(body: Body, isUrl: string -> bool)
    ensures IsSubsequence(Issues(body, isUrl), SchemaKeys())
  {
    FilterIsSubsequence(SchemaKeys(), Fails(body, isUrl));
  }

  /** A key is reported exactly when its check fails. */
  lemma IssuesMeaning(body: Body, isUrl: string -> bool, k: Key)
    ensures k in Issues(body, isUrl) <==> !FieldOk(body, k, isUrl)
  {
    SchemaKeysListed();
  }

  /** A body is accepted exactly when every key passes its check. */
  lemma IssuesEmpty(body: Body, isUrl: string -> bool)
    ensures Issues(body, isUrl) == [] <==> forall k :: FieldOk(body, k, isUrl)
  {
    var r := Issues(body, isUrl);
    if r != [] {
      IssuesMeaning(body, isUrl, r[0]);
    } else {
      forall k ensures FieldOk(body, k, isUrl) {
        IssuesMeaning(body, isUrl, k);
      }
    }
  }

  /** The checks an accepted body passed, key by key. */
  lemma PassedChecks(body: Body, isUrl: string -> bool)
    requires Issues(body, isUrl) == []
    ensures FieldOk(body, MakeKey, isUrl)
    ensures FieldOk(body, ModelKey, isUrl)
    ensures FieldOk(body, YearKey, isUrl)
    ensures FieldOk(body, PriceKey, isUrl)
    ensures FieldOk(body, MileageKey, isUrl)
    ensures FieldOk(body, ColorKey, isUrl)
    ensures FieldOk(body, StatusKey, isUrl)
    ensures FieldOk(body, VinKey, isUrl)
    ensures FieldOk(body, DescriptionKey, isUrl)
    ensures FieldOk(body, ImageUrlKey, isUrl)
  {
    IssuesMeaning(body, isUrl, MakeKey);
    IssuesMeaning(body, isUrl, ModelKey);
    IssuesMeaning(body, isUrl, YearKey);
    IssuesMeaning(body, isUrl, PriceKey);
    IssuesMeaning(body, isUrl, MileageKey);
    IssuesMeaning(body, isUrl, ColorKey);
    IssuesMeaning(body, isUrl, StatusKey);
    IssuesMeaning(body, isUrl, VinKey);
    IssuesMeaning(body, isUrl, DescriptionKey);
    IssuesMeaning(body, isUrl, ImageUrlKey);
  }

  /** `carSchema.parse(body)`: the fields, or the keys whose check failed, in schema order. */
  function Parse(body: Body, isUrl: string -> bool): (r: Parsed)
    ensures r.Rejected? <==> Issues(body, isUrl) != []
    ensures r.Rejected? ==> r.issues == Issues(body, isUrl)
    ensures r.Parsed? ==> WellFormed(r.fields)
  {
    var issues := Issues(body, isUrl);
    if issues != [] then Rejected(issues) else Parsed(Accept(body, isUrl))
  }

  /** The fields of a body that passed every check, with `description` defaulted to the empty text. */
  function Accept(body: Body, isUrl: string -> bool): (f: CarFields)
    requires Issues(body, isUrl) == []
    ensures WellFormed(f)
  {
    PassedChecks(body, isUrl);
    CarFields(
      body[MakeKey].s,
      body[ModelKey].s,
      body[YearKey].n,
      body[PriceKey].n,
      body[MileageKey].n,
      body[ColorKey].s,
      StatusOf(Field(body, StatusKey)).value,
      body[VinKey].s,
      if DescriptionKey in body && body[DescriptionKey].JString? then body[DescriptionKey].s else "",
      body[ImageUrlKey].s)
  }

  /** The body a record's fields would be sent as (the form's payload, or a JSON export). */
  function BodyOf(f: CarFields): (body: Body)
    ensures forall k :: k in body && body[k] == FieldValue(f, k)
  {
    SchemaKeysListed();
    map k | k in SchemaKeys() :: FieldValue(f, k)
  }

  /** The JSON value a field is sent as. */
  function FieldValue(f: CarFields, k: Key): Json
  {
    match k
    case MakeKey => JString(f.make)
    case ModelKey => JString(f.model)
    case YearKey => JNumber(f.year)
    case PriceKey => JNumber(f.price)
    case MileageKey => JNumber(f.mileage)
    case ColorKey => JString(f.color)
    case StatusKey => JString(StatusName(f.status))
    case VinKey => JString(f.vin)
    case DescriptionKey => JString(f.description)
    case ImageUrlKey => JString(f.imageUrl)
  }

  /** A parsed body carries exactly the values the body held. */
  lemma ParseReadsBody(body: Body, isUrl: string -> bool)
    requires Parse(body, isUrl).Parsed?
    ensures var f := Parse(body, isUrl).fields;
      && Field(body, MakeKey) == Some(JString(f.make))
      && Field(body, ModelKey) == Some(JString(f.model))
      && Field(body, YearKey) == Some(JNumber(f.year))
      && Field(body, PriceKey) == Some(JNumber(f.price))
      && Field(body, MileageKey) == Some(JNumber(f.mileage))
      && Field(body, ColorKey) == Some(JString(f.color))
      && Field(body, StatusKey) == Some(JString(StatusName(f.status)))
      && Field(body, VinKey) == Some(JString(f.vin))
      && Field(body, ImageUrlKey) == Some(JString(f.imageUrl)) && isUrl(f.imageUrl)
      && (Field(body, DescriptionKey).Some? ==> Field(body, DescriptionKey) == Some(JString(f.description)))
      && (Field(body, DescriptionKey).None? ==> f.description == "")
  {
    assert Parse(body, isUrl).fields == Accept(body, isUrl);
    PassedChecks(body, isUrl);
  }

  /** A body that passes the check of each key, key by key, has no issues. */
  lemma NoIssues(body: Body, isUrl: string -> bool)
    requires FieldOk(body, MakeKey, isUrl)
    requires FieldOk(body, ModelKey, isUrl)
    requires FieldOk(body, YearKey, isUrl)
    requires FieldOk(body, PriceKey, isUrl)
    requires FieldOk(body, MileageKey, isUrl)
    requires FieldOk(body, ColorKey, isUrl)
    requires FieldOk(body, StatusKey, isUrl)
    requires FieldOk(body, VinKey, isUrl)
    requires FieldOk(body, DescriptionKey, isUrl)
    requires FieldOk(body, ImageUrlKey, isUrl)
    ensures Issues(body, isUrl) == []
  {
    forall k ensures FieldOk(body, k, isUrl) {
      match k
      case _ =>
    }
    IssuesEmpty(body, isUrl);
  }

  /** Round trip: a well-formed record, sent as a body with a valid image URL, parses back to itself. */
  lemma ParseBodyOf(f: CarFields, isUrl: string -> bool)
    requires WellFormed(f) && isUrl(f.imageUrl)
    ensures Parse(BodyOf(f), isUrl) == Parsed(f)
  {
    ParseSentFields(BodyOf(f), f, isUrl);
  }

  /** A body holding exactly the values of well-formed fields parses back to those fields. */
  lemma ParseSentFields(body: Body, f: CarFields, isUrl: string -> bool)
    requires WellFormed(f) && isUrl(f.imageUrl)
    requires forall k :: Field(body, k) == Some(FieldValue(f, k))
    ensures Parse(body, isUrl) == Parsed(f)
  {
    assert Field(body, MakeKey) == Some(JString(f.make));
    assert Field(body, ModelKey) == Some(JString(f.model));
    assert Field(body, YearKey) == Some(JNumber(f.year));
    assert Field(body, PriceKey) == Some(JNumber(f.price));
    assert Field(body, MileageKey) == Some(JNumber(f.mileage));
    assert Field(body, ColorKey) == Some(JString(f.color));
    assert Field(body, StatusKey) == Some(JString(StatusName(f.status)));
    assert Field(body, VinKey) == Some(JString(f.vin));
    assert Field(body, DescriptionKey) == Some(JString(f.description));
    assert Field(body, ImageUrlKey) == Some(JString(f.imageUrl));
    ParseStatusName(f.status);
    NoIssues(body, isUrl);
    ParseReadsBody(body, isUrl);
    var g := Parse(body, isUrl).fields;
    ParseStatusName(g.status);
    assert g == f;
  }

  // ----------------------------------------------------------------- records

  function FieldsOf(c: Car): CarFields
  {
    CarFields(c.make, c.model, c.year, c.price, c.mileage, c.color, c.status, c.vin, c.description, c.imageUrl)
  }

  /** A record whose schema fields are replaced by `f`; id and timestamps kept. */
  function WithFields(c: Car, f: CarFields): (r: Car)
    ensures FieldsOf(r) == f
    ensures r.id == c.id && r.createdAt == c.createdAt && r.updatedAt == c.updatedAt && r.soldAt == c.soldAt
  {
    c.(make := f.make, model := f.model, year := f.year, price := f.price, mileage := f.mileage,
       color := f.color, status := f.status, vin := f.vin, description := f.description, imageUrl := f.imageUrl)
  }

  /** No two records share a VIN (the table's unique constraint). */
  ghost predicate UniqueVins(cars: map<Id, Car>)
  {
    forall a, b :: a in cars && b in cars && cars[a].vin == cars[b].vin ==> a == b
  }

  /** Some record other than `self` holds `vin`. */
  predicate VinHeldByOther(cars: map<Id, Car>, vin: string, self: Option<Id>)
  {
    exists id | id in cars :: cars[id].vin == vin && self != Some(id)
  }

  /** Newest first: `orderBy: { createdAt: "desc" }`. */
  ghost predicate NewestFirst(s: seq<Car>)
  {
    forall i, j :: 0 <= i < j < |s| ==> s[i].createdAt >= s[j].createdAt
  }

  /** A record ahead of a newest-first list that is no older than any of it keeps the list newest first. */
  lemma NewestFirstCons(x: Car, t: seq<Car>)
    requires NewestFirst(t)
    requires forall y :: y in t ==> x.createdAt >= y.createdAt
    ensures NewestFirst([x] + t)
  {
    var r := [x] + t;
    forall i, j | 0 <= i < j < |r|
      ensures r[i].createdAt >= r[j].createdAt
    {
      assert r[j] == t[j - 1];
      if i > 0 {
        assert r[i] == t[i - 1];
      } else {
        assert r[j] in t;
      }
    }
  }

  /** The head of a newest-first list is at least as new as every record in it, and the tail is newest first. */
  lemma HeadNewest(s: seq<Car>)
    requires NewestFirst(s) && s != []
    ensures NewestFirst(s[1..])
    ensures forall y :: y in s ==> s[0].createdAt >= y.createdAt
  {
    forall y | y in s ensures s[0].createdAt >= y.createdAt {
      var i :| 0 <= i < |s| && s[i] == y;
      assert i == 0 || s[0].createdAt >= s[i].createdAt;
    }
  }

  /** In a list with distinct ids the head's id does not occur in the tail, whose ids stay distinct. */
  lemma HeadIdFresh(s: seq<Car>)
    requires s != []
    ensures DistinctIds(s) ==> DistinctIds(s[1..]) && forall y :: y in s[1..] ==> s[0].id != y.id
  {
    if DistinctIds(s) {
      forall y | y in s[1..] ensures s[0].id != y.id {
        var i :| 0 <= i < |s[1..]| && s[1..][i] == y;
        assert s[i + 1] == y;
      }
    }
  }

  /** `c` inserted into a newest-first list, ahead of the records created at the same instant. */
  function InsertNewest(s: seq<Car>, c: Car): (r: seq<Car>)
    requires NewestFirst(s)
    ensures NewestFirst(r)
    ensures |r| == |s| + 1
    ensures forall x :: x in r <==> x in s || x == c
    ensures DistinctIds(s) && (forall x :: x in s ==> x.id != c.id) ==> DistinctIds(r)
  {
    if s == [] then
      NewestFirstCons(c, s);
      DistinctCons(c, s);
      [c]
    else
      HeadNewest(s);
      HeadIdFresh(s);
      if s[0].createdAt <= c.createdAt then
        NewestFirstCons(c, s);
        DistinctCons(c, s);
        [c] + s
      else
        var t := InsertNewest(s[1..], c);
        assert forall y :: y in s[1..] ==> y in s;
        NewestFirstCons(s[0], t);
        DistinctCons(s[0], t);
        [s[0]] + t
  }

  /** A record ahead of a list with distinct ids, whose id the list lacks, keeps the ids distinct. */
  lemma DistinctCons(x: Car, t: seq<Car>)
    ensures DistinctIds(t) && (forall y :: y in t ==> x.id != y.id) ==> DistinctIds([x] + t)
  {
    var r := [x] + t;
    if DistinctIds(t) && (forall y :: y in t ==> x.id != y.id) {
      forall i, j | 0 <= i < j < |r|
        ensures r[i].id != r[j].id
      {
        assert r[j] == t[j - 1];
        if i > 0 {
          assert r[i] == t[i - 1];
        } else {
          assert r[j] in t;
        }
      }
    }
  }

  // ------------------------------------------------------------------- table

  /** Every row sits under its own id below the next id, passed the schema, and no two rows share a VIN. */
  ghost predicate TableOk(cars: map<Id, Car>, nextId: Id)
  {
    && (forall id :: id in cars ==> id < nextId && cars[id].id == id && WellFormed(FieldsOf(cars[id])))
    && UniqueVins(cars)
  }

  /** A well-formed row under the next id whose VIN no row holds keeps the table consistent. */
  lemma InsertKeepsTable(cars: map<Id, Car>, nextId: Id, car: Car)
    requires TableOk(cars, nextId)
    requires car.id == nextId && WellFormed(FieldsOf(car)) && !VinHeldByOther(cars, car.vin, None)
    ensures nextId !in cars
    ensures TableOk(cars[nextId := car], nextId + 1)
  {
  }

  /** A well-formed row replacing row `id` whose VIN no other row holds keeps the table consistent. */
  lemma ReplaceKeepsTable(cars: map<Id, Car>, nextId: Id, id: Id, car: Car)
    requires TableOk(cars, nextId)
    requires id in cars && car.id == id && WellFormed(FieldsOf(car)) && !VinHeldByOther(cars, car.vin, Some(id))
    ensures TableOk(cars[id := car], nextId)
  {
  }

  /** Removing a row keeps the table consistent. */
  lemma RemoveKeepsTable(cars: map<Id, Car>, nextId: Id, id: Id)
    requires TableOk(cars, nextId)
    ensures TableOk(cars - {id}, nextId)
  {
  }

  // ------------------------------------------------------------------ routes

  /** A route's reply, one constructor per HTTP status it sends. */
  datatype Reply =
    | Ok(car: Car)                  // 200
    | Created(car: Car)             // 201
    | NoContent                     // 204
    | BadRequest(issues: seq<Key>)  // 400
    | NotFound                      // 404
    | Conflict                      // 409

  /** The car table. */
  class CarStore {
    var cars: map<Id, Car>
    /** The next identifier the table hands out. */
    var nextId: Id

    ghost predicate Valid()
      reads this
    {
      TableOk(cars, nextId)
    }

    constructor ()
      ensures Valid() && cars == map[]
    {
      cars := map[];
      nextId := 0;
    }

    /** `GET /cars`: every stored record exactly once, newest first. */
    method List() returns (r: seq<Car>)
      requires Valid()
      ensures NewestFirst(r)
      ensures DistinctIds(r)
      ensures forall c :: c in r <==> c in cars.Values
      ensures |r| == |cars|
    {
      var pending := cars.Keys;
      r := [];
      while pending != {}
        invariant pending <= cars.Keys
        invariant NewestFirst(r) && DistinctIds(r)
        invariant forall c :: c in r <==> c in cars.Values && c.id !in pending
        invariant |r| + |pending| == |cars|
        decreases |pending|
      {
        var id :| id in pending;
        r := InsertNewest(r, cars[id]);
        pending := pending - {id};
      }
    }

    /** `GET /cars/:id` */
    method Get(id: Id) returns (r: Reply)
      ensures id in cars ==> r == Ok(cars[id])
      ensures id !in cars ==> r == NotFound
    {
      if id in cars {
        r := Ok(cars[id]);
      } else {
        r := NotFound;
      }
    }

    /** `POST /cars` at instant `now`. */
    method Create(body: Body, isUrl: string -> bool, now: int) returns (r: Reply)
      requires Valid()
      modifies this
      ensures Valid()
      ensures r.BadRequest? || r.Conflict? || r.Created?
      ensures Parse(body, isUrl).Rejected? ==> r == BadRequest(Parse(body, isUrl).issues)
      ensures (Parse(body, isUrl).Parsed? && VinHeldByOther(old(cars), Parse(body, isUrl).fields.vin, None)) ==>
        r == Conflict
      ensures (Parse(body, isUrl).Parsed? && !VinHeldByOther(old(cars), Parse(body, isUrl).fields.vin, None)) ==>
        r.Created?
      ensures !r.Created? ==> unchanged(this)
      ensures r.Created? ==>
        && Parse(body, isUrl).Parsed?
        && FieldsOf(r.car) == Parse(body, isUrl).fields
        && r.car.id !in old(cars)
        && cars == old(cars)[r.car.id := r.car]
        && |cars| == |old(cars)| + 1
        && r.car.createdAt == now && r.car.updatedAt == now && r.car.soldAt == None
    {
      var parsed := Parse(body, isUrl);
      if parsed.Rejected? {
        return BadRequest(parsed.issues);
      }
      var f := parsed.fields;
      if VinHeldByOther(cars, f.vin, None) {
        return Conflict;
      }
      var car := Insert(f, now);
      r := Created(car);
    }

    /** Stores a new row built from `f` under the next id. */
    method Insert(f: CarFields, now: int) returns (car: Car)
      requires Valid() && WellFormed(f) && !VinHeldByOther(cars, f.vin, None)
      modifies this
      ensures Valid()
      ensures FieldsOf(car) == f && car.id == old(nextId) && car.id !in old(cars)
      ensures car.createdAt == now && car.updatedAt == now && car.soldAt == None
      ensures cars == old(cars)[car.id := car]
    {
      car := Car(nextId, f.make, f.model, f.year, f.price, f.mileage, f.color, f.status, f.vin,
                 f.description, f.imageUrl, now, now, None);
      InsertKeepsTable(cars, nextId, car);
      cars := cars[nextId := car];
      nextId := nextId + 1;
    }

    /** `PUT /cars/:id` at instant `now`. */
    method Update(id: Id, body: Body, isUrl: string -> bool, now: int) returns (r: Reply)
      requires Valid()
      modifies this
      ensures Valid()
      ensures r.BadRequest? || r.NotFound? || r.Conflict? || r.Ok?
      ensures Parse(body, isUrl).Rejected? ==> r == BadRequest(Parse(body, isUrl).issues)
      ensures Parse(body, isUrl).Parsed? && id !in old(cars) ==> r == NotFound
      ensures (Parse(body, isUrl).Parsed? && id in old(cars)
                && VinHeldByOther(old(cars), Parse(body, isUrl).fields.vin, Some(id))) ==> r == Conflict
      ensures (Parse(body, isUrl).Parsed? && id in old(cars)
                && !VinHeldByOther(old(cars), Parse(body, isUrl).fields.vin, Some(id))) ==> r.Ok?
      ensures !r.Ok? ==> unchanged(this)
      ensures r.Ok? ==>
        && Parse(body, isUrl).Parsed?
        && id in old(cars)
        && r.car == WithFields(old(cars)[id], Parse(body, isUrl).fields).(updatedAt := now)
        && cars == old(cars)[id := r.car]
        && nextId == old(nextId)
    {
      var parsed := Parse(body, isUrl);
      if parsed.Rejected? {
        return BadRequest(parsed.issues);
      }
      if id !in cars {
        return NotFound;
      }
      var f := parsed.fields;
      if VinHeldByOther(cars, f.vin, Some(id)) {
        return Conflict;
      }
      var car := Replace(id, f, now);
      r := Ok(car);
    }

    /** Overwrites the schema fields of row `id` with `f` and stamps it with `now`. */
    method Replace(id: Id, f: CarFields, now: int) returns (car: Car)
      requires Valid() && id in cars && WellFormed(f) && !VinHeldByOther(cars, f.vin, Some(id))
      modifies this
      ensures Valid()
      ensures car == WithFields(old(cars)[id], f).(updatedAt := now)
      ensures cars == old(cars)[id := car] && nextId == old(nextId)
    {
      car := WithFields(cars[id], f).(updatedAt := now);
      ReplaceKeepsTable(cars, nextId, id, car);
      cars := cars[id := car];
    }

    /** `DELETE /cars/:id` */
    method Delete(id: Id) returns (r: Reply)
      requires Valid()
      modifies this
      ensures Valid()
      ensures id in old(cars) ==> r == NoContent && cars == old(cars) - {id} && nextId == old(nextId)
      ensures id !in old(cars) ==> r == NotFound && unchanged(this)
    {
      if id !in cars {
        return NotFound;
      }
      RemoveKeepsTable(cars, nextId, id);
      cars := cars - {id};
      r := NoContent;
    }
  }

  /** Deleting the same id twice: the second attempt always reports not found. */
  method DeleteTwice(store: CarStore, id: Id) returns (first: Reply, second: Reply)
    requires store.Valid()
    modifies store
    ensures first == NoContent <==> id in old(store.cars)
    ensures second == NotFound
    ensures store.cars == old(store.cars) - {id}
  {
    first := store.Delete(id);
    second := store.Delete(id);
  }
}
