/** The vehicle record shared by the server routes and the browser components. */
module Records {

  datatype Option<+T> = None | Some(value: T)

  /** The three values the `status` column may hold. */
  datatype Status = Available | Pending | Sold

  /** The text form of a status, as stored and as sent over the wire. */
  function StatusName(s: Status): string
  {
    match s
    case Available => "available"
    case Pending => "pending"
    case Sold => "sold"
  }

  /** The enumeration check of the request schema: a status name or nothing. */
  function ParseStatus(name: string): (r: Option<Status>)
    ensures r.Some? ==> StatusName(r.value) == name
  {
    if name == "available" then Some(Available)
    else if name == "sold" then Some(Sold)
    else if name == "pending" then Some(Pending)
    else None
  }

  /** Every status name parses back to its status, so no name is refused that a status prints as. */
  lemma ParseStatusName(s: Status)
    ensures ParseStatus(StatusName(s)) == Some(s)
  {
  }

  /** Record identifiers: opaque and assigned by the store, modelled as naturals. */
  type Id = nat

  /** A month index as returned by `getMonth()`: 0 is January. */
  type Month = m: int | 0 <= m < 12

  /** When a car was sold: the instant in milliseconds and its calendar month. */
  datatype Sale = Sale(at: int, month: Month)

  datatype Car = Car(
    id: Id,
    make: string,
    model: string,
    year: int,
    price: int,
    mileage: int,
    color: string,
    status: Status,
    vin: string,
    description: string,
    imageUrl: string,
    createdAt: int,
    updatedAt: int,
    soldAt: Option<Sale>)

  /** No identifier occurs twice in a list of records. */
  ghost predicate DistinctIds(s: seq<Car>)
  {
    forall i, j :: 0 <= i < j < |s| ==> s[i].id != s[j].id
  }
}
