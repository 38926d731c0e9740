/** The JSON documents the racing-data APIs return, as parsed records.
    Only the keys the scripts read are kept. */
module Payloads {
  import opened Wrappers

  /** One key of a JSON object: missing, present with `null`, or present
      with a value. The scripts read keys two ways, `d.get(k)` and `d[k]`,
      and the two differ exactly on a missing key. */
  datatype Field<+T> = Absent | Null | Val(v: T)

  /** `d.get(k)`: a missing key and a `null` both give `None`. */
  function Get<T>(f: Field<T>): Option<T>
  {
    if f.Val? then Some(f.v) else None
  }

  /** `d[k]`: a missing key raises `KeyError`; a `null` gives `None`. */
  function Index<T>(f: Field<T>): Outcome<Option<T>>
  {
    match f
    case Absent => Crashed
    case Null => Done(None)
    case Val(x) => Done(Some(x))
  }

  /** A JSON scalar that the APIs use for positions and rounds. */
  datatype Scalar = Int(i: int) | Str(s: string)

  /** A nested object read only for its identifier, such as
      `{"driverId": ...}` or `{"teamId": ...}`. */
  datatype IdObj = IdObj(id: Field<string>)

  /** `d.get(k, {}).get(id)`: a missing object reads as `{}`, but a `null`
      one raises `AttributeError` on `.get`. */
  function GetNestedId(f: Field<IdObj>): Outcome<Option<string>>
  {
    match f
    case Absent => Done(None)
    case Null => Crashed
    case Val(o) => Done(Get(o.id))
  }

  /** `d[k][id]`: raises when the object or its identifier key is missing,
      or when the object is `null`. */
  function IndexNestedId(f: Field<IdObj>): Outcome<Option<string>>
  {
    match f
    case Val(o) => Index(o.id)
    case _ => Crashed
  }

  /** Iterating over `d.get(k, [])`: a missing list is empty, a `null` one
      raises `TypeError`. */
  function GetList<T>(f: Field<seq<T>>): Outcome<seq<T>>
  {
    match f
    case Absent => Done([])
    case Null => Crashed
    case Val(xs) => Done(xs)
  }

  /** A response body: an object whose `"races"` key holds `T`, and whether
      it has any other key (which decides whether the object is empty, and
      so falsy, when `"races"` is missing). */
  datatype Doc<+T> = Doc(races: Field<T>, otherKeys: bool)
  {
    /** `not data`: the body is the empty object. */
    predicate Falsy() { races.Absent? && !otherKeys }
  }

  /** One record of `races.results` of the race endpoint. */
  datatype ResultEntry = ResultEntry(
    driver: Field<IdObj>,
    team: Field<IdObj>,
    position: Field<Scalar>,
    status: Field<string>,
    retired: Field<string>)

  /** `races` of the race endpoint. */
  datatype RaceObj = RaceObj(raceId: Field<string>, results: Field<seq<ResultEntry>>)

  /** One record of `races.qualyResults` of the qualifying endpoints. */
  datatype QualyEntry = QualyEntry(
    driverId: Field<string>,
    teamId: Field<string>,
    gridPosition: Field<Scalar>,
    q1: Field<string>,
    q2: Field<string>,
    q3: Field<string>)

  /** `races` of the qualifying endpoints. */
  datatype QualyObj = QualyObj(raceId: Field<string>, qualyResults: Field<seq<QualyEntry>>)

  /** One record of `races.fp<n>Results` of a practice endpoint. */
  datatype PracticeEntry = PracticeEntry(driverId: Field<string>, teamId: Field<string>, time: Field<string>)

  /** `races` of a practice endpoint: its race id and the result lists it
      holds, by key (`"fp1Results"`, ...); a list given as `null` is `None`. */
  datatype PracticeObj = PracticeObj(raceId: Field<string>, lists: map<string, Option<seq<PracticeEntry>>>)

  datatype Circuit = Circuit(circuitName: Field<string>, country: Field<string>)

  /** One record of the season calendar; `date` is a day number. */
  datatype CalendarEntry = CalendarEntry(
    raceId: Field<string>,
    round: Field<Scalar>,
    raceName: Field<string>,
    date: Field<int>,
    time: Field<string>,
    circuit: Field<Circuit>)
}
