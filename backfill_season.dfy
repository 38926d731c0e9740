/** The one-season backfill (`backfill_season.py`): the season calendar,
    then for every round the three practice sessions, qualifying and the
    race, each inserted with `ON CONFLICT DO NOTHING` and committed once per
    round. An exception that escapes ends the script. */
module BackfillSeason {
  import opened Wrappers
  import opened PyText
  import opened Payloads
  import opened Store
  import AutoPipeline

  // ---------------------------------------------------------------------
  // Fetching
  // ---------------------------------------------------------------------

  /** What `requests.get` produced: no response at all (the request raised),
      or a status code and a body, `None` when the body is not JSON. */
  datatype Response<T> = NoResponse | Response(status: int, body: Option<Doc<T>>)

  /** `fetch(url)`: `None` for any status other than 200; the request and
      `r.json()` raise, and nothing catches them. */
  function Fetch<T>(resp: Response<T>): (r: Outcome<Option<Doc<T>>>)
    ensures resp.Response? && resp.status != 200 ==> r == Done(None)
    ensures r.Done? && r.value.Some? ==> resp.Response? && resp.status == 200 && resp.body == r.value
    ensures r.Crashed? <==> resp.NoResponse? || (resp.status == 200 && resp.body.None?)
  {
    match resp
    case NoResponse => Crashed
    case Response(status, body) =>
      if status != 200 then Done(None)
      else if body.None? then Crashed
      else Done(body)
  }

  /** `if not data`: no data, or the empty object. */
  predicate NoData<T>(data: Option<Doc<T>>)
  {
    data.None? || data.value.Falsy()
  }

  // ---------------------------------------------------------------------
  // backfill_races
  // ---------------------------------------------------------------------

  /** `int(d[k])` for a round number. */
  function IntOf(f: Field<Scalar>): (r: Outcome<int>)
    ensures f.Val? && f.v.Int? ==> r == Done(f.v.i)
    ensures f.Val? && f.v.Str? ==> (r.Done? <==> ParseInt(f.v.s).Some?) && (r.Done? ==> ParseInt(f.v.s) == Some(r.value))
    ensures f.Absent? || f.Null? ==> r.Crashed?
  {
    match f
    case Val(Int(i)) => Done(i)
    case Val(Str(s)) => if ParseInt(s).Some? then Done(ParseInt(s).value) else Crashed
    case _ => Crashed
  }

  /** The `f1_races` row of one calendar record, keyed by its race id. The
      race id is the table's key, so a `null` one is refused. */
  function CalendarRowOf(season: int, e: CalendarEntry): (r: Outcome<(string, RaceRow)>)
    ensures r.Done? ==> e.raceId == Val(r.value.0) && IntOf(e.round) == Done(r.value.1.round)
    ensures r.Done? <==> (Index(e.raceId).Done? && Index(e.raceId).value.Some? && IntOf(e.round).Done? &&
      Index(e.raceName).Done? && e.circuit.Val? && Index(e.circuit.v.circuitName).Done? && Index(e.circuit.v.country).Done?)
    ensures r.Done? ==> (Index(e.raceName) == Done(r.value.1.name) &&
      Index(e.circuit.v.circuitName) == Done(r.value.1.circuit) && Index(e.circuit.v.country) == Done(r.value.1.country))
    ensures r.Done? ==> r.value.1.season == season && r.value.1.date == Get(e.date) && r.value.1.time == Get(e.time)
  {
    match (Index(e.raceId), IntOf(e.round), Index(e.raceName), e.circuit)
    case (Done(Some(id)), Done(rnd), Done(name), Val(c)) =>
      (match (Index(c.circuitName), Index(c.country))
       case (Done(circuit), Done(country)) =>
         Done((id, RaceRow(season, rnd, name, Get(e.date), Get(e.time), circuit, country)))
       case _ => Crashed)
    case _ => Crashed
  }

  function CalendarRowFn(season: int): CalendarEntry -> Outcome<(string, RaceRow)>
  {
    e => CalendarRowOf(season, e)
  }

  /** The calendar records of a fetch: none when there is no data, and
      `data["races"]` otherwise, which must be a list. */
  function CalendarEntries(fetched: Outcome<Option<Doc<seq<CalendarEntry>>>>): Outcome<seq<CalendarEntry>>
  {
    match fetched
    case Crashed => Crashed
    case Done(data) =>
      if NoData(data) then Done([])
      else if data.value.races.Val? then Done(data.value.races.v)
      else Crashed
  }

  /** What `backfill_races` does to the session's view and what it returns. */
  function CalendarBatch(db: Db, season: int, resp: Response<seq<CalendarEntry>>): Outcome<(Db, seq<int>)>
  {
    match CalendarEntries(Fetch(resp))
    case Crashed => Crashed
    case Done(entries) =>
      match MapAll(entries, CalendarRowFn(season))
      case Crashed => Crashed
      case Done(rows) =>
        Done((db.(races := InsertAll(db.races, rows)), seq(|rows|, i requires 0 <= i < |rows| => rows[i].1.round)))
  }

  method BackfillRaces(conn: Connection, season: int, resp: Response<seq<CalendarEntry>>) returns (rounds: Outcome<seq<int>>)
    modifies conn
    ensures conn.committed == old(conn.committed)
    ensures rounds.Crashed? <==> CalendarBatch(old(conn.pending), season, resp).Crashed?
    ensures rounds.Done? ==> (conn.pending, rounds.value) == CalendarBatch(old(conn.pending), season, resp).value
  {
    var data := Fetch(resp);
    if data.Crashed? {
      return Crashed;
    }
    if NoData(data.value) {
      ghost var none: seq<(string, RaceRow)> := [];
      assert CalendarEntries(data) == Done([]);
      assert MapAll([], CalendarRowFn(season)) == Done(none);
      assert old(conn.pending).(races := InsertAll(old(conn.pending).races, none)) == conn.pending;
      assert seq(|none|, i requires 0 <= i < |none| => none[i].1.round) == [];
      return Done([]);
    }
    if !data.value.value.races.Val? {
      return Crashed;
    }
    var entries := data.value.value.races.v;
    var rs: seq<int> := [];
    ghost var rows: seq<(string, RaceRow)> := [];
    for i := 0 to |entries|
      invariant conn.committed == old(conn.committed)
      invariant |rows| == i && |rs| == i
      invariant forall j :: 0 <= j < i ==> CalendarRowOf(season, entries[j]) == Done(rows[j]) && rs[j] == rows[j].1.round
      invariant conn.pending == old(conn.pending).(races := InsertAll(old(conn.pending).races, rows))
    {
      var row := CalendarRowOf(season, entries[i]);
      if row.Crashed? {
        assert MapAll(entries, CalendarRowFn(season)).Crashed?;
        return Crashed;
      }
      conn.pending := conn.pending.(races := InsertIfAbsent(conn.pending.races, row.value.0, row.value.1));
      assert (rows + [row.value])[..i] == rows;
      rows := rows + [row.value];
      rs := rs + [row.value.1.round];
    }
    assert CalendarEntries(data) == Done(entries);
    ghost var all := MapAll(entries, CalendarRowFn(season));
    assert all.Done?;
    assert all.value == rows;
    assert rs == seq(|rows|, i requires 0 <= i < |rows| => rows[i].1.round);
    return Done(rs);
  }

  /** `backfill_races` returns one round per calendar record, in the order
      the API lists them, and an empty list with no insert when the fetch
      gives no data (any status other than 200, or an empty object). */
  lemma CalendarRounds(db: Db, season: int, resp: Response<seq<CalendarEntry>>)
    ensures resp.Response? && (resp.status != 200 || (resp.body.Some? && resp.body.value.Falsy())) ==>
      CalendarBatch(db, season, resp) == Done((db, []))
    ensures (resp.Response? && resp.status == 200 && resp.body.Some? && resp.body.value.races.Val? &&
      CalendarBatch(db, season, resp).Done?) ==>
      var entries := resp.body.value.races.v;
      var rounds := CalendarBatch(db, season, resp).value.1;
      |rounds| == |entries| && forall i :: 0 <= i < |entries| ==> IntOf(entries[i].round) == Done(rounds[i])
  {
    if resp.Response? && (resp.status != 200 || (resp.body.Some? && resp.body.value.Falsy())) {
      ghost var none: seq<(string, RaceRow)> := [];
      assert NoData(Fetch(resp).value);
      assert CalendarEntries(Fetch(resp)) == Done([]);
      assert MapAll([], CalendarRowFn(season)) == Done(none);
      assert InsertAll(db.races, none) == db.races;
      assert seq(|none|, i requires 0 <= i < |none| => none[i].1.round) == [];
    }
  }

  // ---------------------------------------------------------------------
  // backfill_fp
  // ---------------------------------------------------------------------

  datatype Session = FP1 | FP2 | FP3

  /** `f"{session}Results"`. */
  function ResultsKey(s: Session): string
  {
    match s
    case FP1 => "fp1Results"
    case FP2 => "fp2Results"
    case FP3 => "fp3Results"
  }

  /** `f1_{session}_results`. */
  function PracticeTable(db: Db, s: Session): map<Key, PracticeRow>
  {
    match s
    case FP1 => db.fp1
    case FP2 => db.fp2
    case FP3 => db.fp3
  }

  function WithPractice(db: Db, s: Session, t: map<Key, PracticeRow>): (r: Db)
    ensures PracticeTable(r, s) == t
    ensures forall s2 :: s2 != s ==> PracticeTable(r, s2) == PracticeTable(db, s2)
    ensures r.races == db.races && r.raceResults == db.raceResults && r.qualifying == db.qualifying
    ensures r.trainingData == db.trainingData && r.modelMeta == db.modelMeta
  {
    match s
    case FP1 => db.(fp1 := t)
    case FP2 => db.(fp2 := t)
    case FP3 => db.(fp3 := t)
  }

  /** The row of one practice record. `data["races"]["raceId"]` is read for
      every record, and the driver id is a key column. */
  function PracticeRowOf(season: int, rnd: int, race: PracticeObj, e: PracticeEntry): (r: Outcome<(Key, PracticeRow)>)
    ensures r.Done? ==> r.value.0 == Key(season, rnd, r.value.0.driver) && e.driverId == Val(r.value.0.driver)
    ensures r.Done? <==> (Index(race.raceId).Done? && Index(e.driverId).Done? && Index(e.driverId).value.Some? &&
      Index(e.teamId).Done? && Index(e.time).Done?)
    ensures r.Done? ==> Index(race.raceId) == Done(r.value.1.raceId) && Index(e.teamId) == Done(r.value.1.team)
    ensures r.Done? ==> Index(e.time) == Done(r.value.1.bestTime)
  {
    match (Index(race.raceId), Index(e.driverId), Index(e.teamId), Index(e.time))
    case (Done(raceId), Done(Some(driver)), Done(team), Done(time)) =>
      Done((Key(season, rnd, driver), PracticeRow(raceId, team, time)))
    case _ => Crashed
  }

  function PracticeRowFn(season: int, rnd: int, race: PracticeObj): PracticeEntry -> Outcome<(Key, PracticeRow)>
  {
    e => PracticeRowOf(season, rnd, race, e)
  }

  /** The rows `backfill_fp` builds: none when there is no data, no
      `"races"` key, or no results key for the session. */
  function PracticeRows(season: int, rnd: int, s: Session, resp: Response<PracticeObj>): Outcome<seq<(Key, PracticeRow)>>
  {
    match Fetch(resp)
    case Crashed => Crashed
    case Done(data) =>
      if NoData(data) || data.value.races.Absent? then Done([])
      else match data.value.races
        case Val(race) =>
          if ResultsKey(s) !in race.lists then Done([])
          else (match race.lists[ResultsKey(s)]
                case Some(entries) => MapAll(entries, PracticeRowFn(season, rnd, race))
                case None => Crashed)
        case _ => Crashed
  }

  /** The effect of `backfill_fp` and its count. */
  function PracticeBatch(db: Db, season: int, rnd: int, s: Session, resp: Response<PracticeObj>): Outcome<(Db, nat)>
  {
    match PracticeRows(season, rnd, s, resp)
    case Crashed => Crashed
    case Done(rows) => Done((WithPractice(db, s, InsertAll(PracticeTable(db, s), rows)), |rows|))
  }

  method BackfillPractice(conn: Connection, season: int, rnd: int, s: Session, resp: Response<PracticeObj>) returns (n: Outcome<nat>)
    modifies conn
    ensures conn.committed == old(conn.committed)
    ensures n.Crashed? <==> PracticeBatch(old(conn.pending), season, rnd, s, resp).Crashed?
    ensures n.Done? ==> (conn.pending, n.value) == PracticeBatch(old(conn.pending), season, rnd, s, resp).value
  {
    var data := Fetch(resp);
    if data.Crashed? {
      return Crashed;
    }
    if NoData(data.value) || data.value.value.races.Absent? {
      return Done(0);
    }
    if data.value.value.races.Null? {
      return Crashed;
    }
    var race := data.value.value.races.v;
    var key := ResultsKey(s);
    if key !in race.lists {
      return Done(0);
    }
    if race.lists[key].None? {
      return Crashed;
    }
    var entries := race.lists[key].value;
    var rows: seq<(Key, PracticeRow)> := [];
    for i := 0 to |entries|
      invariant conn.committed == old(conn.committed) && conn.pending == old(conn.pending)
      invariant |rows| == i
      invariant forall j :: 0 <= j < i ==> PracticeRowOf(season, rnd, race, entries[j]) == Done(rows[j])
    {
      var row := PracticeRowOf(season, rnd, race, entries[i]);
      if row.Crashed? {
        assert MapAll(entries, PracticeRowFn(season, rnd, race)).Crashed?;
        return Crashed;
      }
      rows := rows + [row.value];
    }
    assert MapAll(entries, PracticeRowFn(season, rnd, race)).value == rows;
    conn.pending := WithPractice(conn.pending, s, InsertAll(PracticeTable(conn.pending, s), rows));
    return Done(|rows|);
  }

  /** `backfill_fp` returns 0 and writes nothing when the payload is
      missing, has no `"races"`, or has no results list for the session. */
  lemma PracticeNothingToDo(db: Db, season: int, rnd: int, s: Session, resp: Response<PracticeObj>)
    requires resp.Response? && (resp.status != 200 ||
      (resp.body.Some? && (resp.body.value.races.Absent? ||
        (resp.body.value.races.Val? && ResultsKey(s) !in resp.body.value.races.v.lists))))
    ensures PracticeBatch(db, season, rnd, s, resp) == Done((db, 0))
  {
    assert InsertAll(PracticeTable(db, s), []) == PracticeTable(db, s);
    match s
    case FP1 =>
    case FP2 =>
    case FP3 =>
  }

  // ---------------------------------------------------------------------
  // backfill_qualy
  // ---------------------------------------------------------------------

  /** The row of one qualifying record: `q1`..`q3` are read with `.get`,
      `gridPosition` with `[]`; the insert names no `position` column. */
  function QualyRowOf(season: int, rnd: int, race: QualyObj, e: QualyEntry): (r: Outcome<(Key, QualyRow)>)
    ensures r.Done? ==> r.value.0 == Key(season, rnd, r.value.0.driver) && e.driverId == Val(r.value.0.driver)
    ensures r.Done? ==> r.value.1.q1 == Get(e.q1) && r.value.1.q2 == Get(e.q2) && r.value.1.q3 == Get(e.q3)
    ensures r.Done? ==> Index(e.gridPosition) == Done(r.value.1.gridPosition) && r.value.1.position.None?
    ensures e.gridPosition.Absent? ==> r.Crashed?
    ensures r.Done? <==> (Index(race.raceId).Done? && Index(e.driverId).Done? && Index(e.driverId).value.Some? &&
      Index(e.teamId).Done? && Index(e.gridPosition).Done?)
    ensures r.Done? ==> Index(race.raceId) == Done(r.value.1.raceId) && Index(e.teamId) == Done(r.value.1.team)
  {
    match (Index(race.raceId), Index(e.driverId), Index(e.teamId), Index(e.gridPosition))
    case (Done(raceId), Done(Some(driver)), Done(team), Done(grid)) =>
      Done((Key(season, rnd, driver), QualyRow(raceId, team, None, grid, Get(e.q1), Get(e.q2), Get(e.q3))))
    case _ => Crashed
  }

  function QualyRowFn(season: int, rnd: int, race: QualyObj): QualyEntry -> Outcome<(Key, QualyRow)>
  {
    e => QualyRowOf(season, rnd, race, e)
  }

  /** The rows `backfill_qualy` builds. Unlike `backfill_fp`, it reads
      `data["races"]` without checking for it, so a non-empty object without
      `"races"` raises. */
  function QualyRows(season: int, rnd: int, resp: Response<QualyObj>): Outcome<seq<(Key, QualyRow)>>
  {
    match Fetch(resp)
    case Crashed => Crashed
    case Done(data) =>
      if NoData(data) then Done([])
      else match data.value.races
        case Val(race) =>
          (match race.qualyResults
           case Absent => Done([])
           case Null => Crashed
           case Val(entries) => MapAll(entries, QualyRowFn(season, rnd, race)))
        case _ => Crashed
  }

  function QualyBatch(db: Db, season: int, rnd: int, resp: Response<QualyObj>): Outcome<(Db, nat)>
  {
    match QualyRows(season, rnd, resp)
    case Crashed => Crashed
    case Done(rows) => Done((db.(qualifying := InsertAll(db.qualifying, rows)), |rows|))
  }

  method BackfillQualy(conn: Connection, season: int, rnd: int, resp: Response<QualyObj>) returns (n: Outcome<nat>)
    modifies conn
    ensures conn.committed == old(conn.committed)
    ensures n.Crashed? <==> QualyBatch(old(conn.pending), season, rnd, resp).Crashed?
    ensures n.Done? ==> (conn.pending, n.value) == QualyBatch(old(conn.pending), season, rnd, resp).value
  {
    var data := Fetch(resp);
    if data.Crashed? {
      return Crashed;
    }
    if NoData(data.value) {
      return Done(0);
    }
    if !data.value.value.races.Val? {
      return Crashed;
    }
    var race := data.value.value.races.v;
    if race.qualyResults.Absent? {
      return Done(0);
    }
    if race.qualyResults.Null? {
      return Crashed;
    }
    var entries := race.qualyResults.v;
    var rows: seq<(Key, QualyRow)> := [];
    for i := 0 to |entries|
      invariant conn.committed == old(conn.committed) && conn.pending == old(conn.pending)
      invariant |rows| == i
      invariant forall j :: 0 <= j < i ==> QualyRowOf(season, rnd, race, entries[j]) == Done(rows[j])
    {
      var row := QualyRowOf(season, rnd, race, entries[i]);
      if row.Crashed? {
        assert MapAll(entries, QualyRowFn(season, rnd, race)).Crashed?;
        return Crashed;
      }
      rows := rows + [row.value];
    }
    assert MapAll(entries, QualyRowFn(season, rnd, race)).value == rows;
    conn.pending := conn.pending.(qualifying := InsertAll(conn.pending.qualifying, rows));
    return Done(|rows|);
  }

  // ---------------------------------------------------------------------
  // backfill_race
  // ---------------------------------------------------------------------

  /** `pos = r.get("position")`, set to `None` when it is a string. */
  function StoredPosition(raw: Option<Scalar>): (p: Option<int>)
    ensures raw.Some? && raw.value.Str? ==> p.None?
    ensures raw.Some? && raw.value.Int? ==> p == Some(raw.value.i)
    ensures raw.None? ==> p.None?
  {
    match raw
    case Some(Int(i)) => Some(i)
    case _ => None
  }

  /** The two writers of `f1_race_results` store different positions for
      the same record: a numeric string is kept by the daily pipeline and
      dropped here, while 0 and negative numbers are dropped by the daily
      pipeline and kept here. */
  lemma PositionWritersDiffer(n: nat)
    ensures AutoPipeline.RacePosition(Some(Str(Show(n)))) == Some(n) && StoredPosition(Some(Str(Show(n)))) == None
    ensures AutoPipeline.RacePosition(Some(Int(0))) == None && StoredPosition(Some(Int(0))) == Some(0)
    ensures AutoPipeline.RacePosition(Some(Int(-1))) == None && StoredPosition(Some(Int(-1))) == Some(-1)
  {
    ShowValue(n);
  }

  /** The row of one race record: the status column gets the `"retired"`
      text; the driver and team are read with `[]` twice. */
  function ResultRowOf(season: int, rnd: int, race: RaceObj, e: ResultEntry): (r: Outcome<(Key, ResultRow)>)
    ensures r.Done? <==> (Index(race.raceId).Done? &&
      IndexNestedId(e.driver).Done? && IndexNestedId(e.driver).value.Some? && IndexNestedId(e.team).Done?)
    ensures r.Done? ==> r.value.0 == Key(season, rnd, r.value.0.driver)
    ensures r.Done? ==> IndexNestedId(e.driver) == Done(Some(r.value.0.driver))
    ensures r.Done? ==> Index(race.raceId) == Done(r.value.1.raceId) && IndexNestedId(e.team) == Done(r.value.1.team)
    ensures r.Done? ==> r.value.1.position == StoredPosition(Get(e.position)) && r.value.1.status == Get(e.retired)
  {
    match (Index(race.raceId), IndexNestedId(e.driver), IndexNestedId(e.team))
    case (Done(raceId), Done(Some(driver)), Done(team)) =>
      Done((Key(season, rnd, driver), ResultRow(raceId, team, StoredPosition(Get(e.position)), Get(e.retired))))
    case _ => Crashed
  }

  function ResultRowFn(season: int, rnd: int, race: RaceObj): ResultEntry -> Outcome<(Key, ResultRow)>
  {
    e => ResultRowOf(season, rnd, race, e)
  }

  function ResultRows(season: int, rnd: int, resp: Response<RaceObj>): Outcome<seq<(Key, ResultRow)>>
  {
    match Fetch(resp)
    case Crashed => Crashed
    case Done(data) =>
      if NoData(data) then Done([])
      else match data.value.races
        case Val(race) =>
          (match race.results
           case Absent => Done([])
           case Null => Crashed
           case Val(entries) => MapAll(entries, ResultRowFn(season, rnd, race)))
        case _ => Crashed
  }

  function ResultBatch(db: Db, season: int, rnd: int, resp: Response<RaceObj>): Outcome<(Db, nat)>
  {
    match ResultRows(season, rnd, resp)
    case Crashed => Crashed
    case Done(rows) => Done((db.(raceResults := InsertAll(db.raceResults, rows)), |rows|))
  }

  method BackfillRace(conn: Connection, season: int, rnd: int, resp: Response<RaceObj>) returns (n: Outcome<nat>)
    modifies conn
    ensures conn.committed == old(conn.committed)
    ensures n.Crashed? <==> ResultBatch(old(conn.pending), season, rnd, resp).Crashed?
    ensures n.Done? ==> (conn.pending, n.value) == ResultBatch(old(conn.pending), season, rnd, resp).value
  {
    var data := Fetch(resp);
    if data.Crashed? {
      return Crashed;
    }
    if NoData(data.value) {
      return Done(0);
    }
    if !data.value.value.races.Val? {
      return Crashed;
    }
    var race := data.value.value.races.v;
    if race.results.Absent? {
      return Done(0);
    }
    if race.results.Null? {
      return Crashed;
    }
    var entries := race.results.v;
    var rows: seq<(Key, ResultRow)> := [];
    for i := 0 to |entries|
      invariant conn.committed == old(conn.committed) && conn.pending == old(conn.pending)
      invariant |rows| == i
      invariant forall j :: 0 <= j < i ==> ResultRowOf(season, rnd, race, entries[j]) == Done(rows[j])
    {
      var row := ResultRowOf(season, rnd, race, entries[i]);
      if row.Crashed? {
        assert MapAll(entries, ResultRowFn(season, rnd, race)).Crashed?;
        return Crashed;
      }
      rows := rows + [row.value];
    }
    assert MapAll(entries, ResultRowFn(season, rnd, race)).value == rows;
    conn.pending := conn.pending.(raceResults := InsertAll(conn.pending.raceResults, rows));
    return Done(|rows|);
  }

  /** The count a backfill returns is the number of records in the payload,
      however many of them the table already held: a payload whose keys are
      all present reports every record and changes nothing. */
  lemma CountIgnoresConflicts(db: Db, season: int, rnd: int, resp: Response<RaceObj>)
    requires ResultRows(season, rnd, resp).Done?
    requires forall i :: 0 <= i < |ResultRows(season, rnd, resp).value| ==> ResultRows(season, rnd, resp).value[i].0 in db.raceResults
    ensures ResultBatch(db, season, rnd, resp) == Done((db, |ResultRows(season, rnd, resp).value|))
  {
    InsertAllPresent(db.raceResults, ResultRows(season, rnd, resp).value);
  }

  // ---------------------------------------------------------------------
  // The script
  // ---------------------------------------------------------------------

  /** The responses of one round's five requests. */
  datatype RoundResponses = RoundResponses(
    fp1: Response<PracticeObj>,
    fp2: Response<PracticeObj>,
    fp3: Response<PracticeObj>,
    qualy: Response<QualyObj>,
    race: Response<RaceObj>)

  function PracticeResponse(r: RoundResponses, s: Session): Response<PracticeObj>
  {
    match s
    case FP1 => r.fp1
    case FP2 => r.fp2
    case FP3 => r.fp3
  }

  /** `["fp1", "fp2", "fp3"]`. */
  const SESSIONS: seq<Session> := [FP1, FP2, FP3]

  /** The practice sessions `ss` backfilled one after another. */
  function PracticeSteps(db: Db, season: int, rnd: int, ss: seq<Session>, r: RoundResponses): Outcome<Db>
    decreases |ss|
  {
    if ss == [] then Done(db)
    else
      match PracticeSteps(db, season, rnd, ss[..|ss| - 1], r)
      case Crashed => Crashed
      case Done(d) =>
        match PracticeBatch(d, season, rnd, ss[|ss| - 1], PracticeResponse(r, ss[|ss| - 1]))
        case Crashed => Crashed
        case Done((d2, _)) => Done(d2)
  }

  /** One round of the main loop, up to its commit. */
  function RoundStep(db: Db, season: int, rnd: int, r: RoundResponses): Outcome<Db>
  {
    match PracticeSteps(db, season, rnd, SESSIONS, r)
    case Crashed => Crashed
    case Done(d1) =>
      match QualyBatch(d1, season, rnd, r.qualy)
      case Crashed => Crashed
      case Done((d2, _)) =>
        match ResultBatch(d2, season, rnd, r.race)
        case Crashed => Crashed
        case Done((d3, _)) => Done(d3)
  }

  /** The committed state after the rounds `rounds`, and whether an
      exception ended the script. */
  function RunRounds(db: Db, season: int, rounds: seq<int>, responses: int -> RoundResponses): (Db, bool)
    decreases |rounds|
  {
    if rounds == [] then (db, false)
    else
      var (d, stopped) := RunRounds(db, season, rounds[..|rounds| - 1], responses);
      if stopped then (d, true)
      else
        var rnd := rounds[|rounds| - 1];
        match RoundStep(d, season, rnd, responses(rnd))
        case Crashed => (d, true)
        case Done(d2) => (d2, false)
  }

  /** What the script leaves committed. */
  function Backfill(db: Db, season: int, calendar: Response<seq<CalendarEntry>>, responses: int -> RoundResponses): Db
  {
    match CalendarBatch(db, season, calendar)
    case Crashed => db
    case Done((d, rounds)) => RunRounds(d, season, rounds, responses).0
  }

  /** One round: the five backfills, then `conn.commit()`. An exception
      ends the script, and its uncommitted work is lost with the session. */
  method BackfillRound(conn: Connection, season: int, rnd: int, r: RoundResponses) returns (ok: bool)
    requires conn.pending == conn.committed
    modifies conn
    ensures conn.pending == conn.committed
    ensures ok <==> RoundStep(old(conn.committed), season, rnd, r).Done?
    ensures conn.committed == if ok then RoundStep(old(conn.committed), season, rnd, r).value else old(conn.committed)
  {
    ghost var start := conn.committed;
    for k := 0 to |SESSIONS|
      invariant conn.committed == start
      invariant PracticeSteps(start, season, rnd, SESSIONS[..k], r) == Done(conn.pending)
    {
      var s := SESSIONS[k];
      assert SESSIONS[..k + 1][..k] == SESSIONS[..k];
      var n := BackfillPractice(conn, season, rnd, s, PracticeResponse(r, s));
      if n.Crashed? {
        assert PracticeSteps(start, season, rnd, SESSIONS[..k + 1], r).Crashed?;
        CrashedPrefix(start, season, rnd, k + 1, r);
        conn.Rollback();
        return false;
      }
    }
    assert SESSIONS[..|SESSIONS|] == SESSIONS;
    var q := BackfillQualy(conn, season, rnd, r.qualy);
    if q.Crashed? {
      conn.Rollback();
      return false;
    }
    var n := BackfillRace(conn, season, rnd, r.race);
    if n.Crashed? {
      conn.Rollback();
      return false;
    }
    conn.Commit();
    return true;
  }

  /** A practice step that raises makes the whole round raise. */
  lemma CrashedPrefix(db: Db, season: int, rnd: int, k: nat, r: RoundResponses)
    requires 0 < k <= |SESSIONS|
    requires PracticeSteps(db, season, rnd, SESSIONS[..k], r).Crashed?
    ensures RoundStep(db, season, rnd, r).Crashed?
  {
    var i := k;
    while i < |SESSIONS|
      invariant k <= i <= |SESSIONS|
      invariant PracticeSteps(db, season, rnd, SESSIONS[..i], r).Crashed?
    {
      assert SESSIONS[..i + 1][..i] == SESSIONS[..i];
      i := i + 1;
    }
    assert SESSIONS[..|SESSIONS|] == SESSIONS;
  }

  /** The main block: the calendar is committed, then each round is
      committed in turn until one raises. */
  method RunBackfill(conn: Connection, season: int, calendar: Response<seq<CalendarEntry>>, responses: int -> RoundResponses)
    requires conn.pending == conn.committed
    modifies conn
    ensures conn.pending == conn.committed
    ensures conn.committed == Backfill(old(conn.committed), season, calendar, responses)
  {
    var rounds := BackfillRaces(conn, season, calendar);
    if rounds.Crashed? {
      conn.Rollback();
      return;
    }
    conn.Commit();
    ghost var start := conn.committed;
    var rs := rounds.value;
    for i := 0 to |rs|
      invariant conn.pending == conn.committed
      invariant RunRounds(start, season, rs[..i], responses) == (conn.committed, false)
    {
      assert rs[..i + 1][..i] == rs[..i];
      var ok := BackfillRound(conn, season, rs[i], responses(rs[i]));
      if !ok {
        StoppedStaysStopped(start, season, rs, i + 1, responses);
        return;
      }
    }
    assert rs[..|rs|] == rs;
  }

  /** Once a round raises, the later rounds never run. */
  lemma {:induction false} StoppedStaysStopped(db: Db, season: int, rounds: seq<int>, k: nat, responses: int -> RoundResponses)
    requires k <= |rounds| && RunRounds(db, season, rounds[..k], responses).1
    ensures RunRounds(db, season, rounds, responses) == RunRounds(db, season, rounds[..k], responses)
    decreases |rounds| - k
  {
    if k < |rounds| {
      assert rounds[..k + 1][..k] == rounds[..k];
      StoppedStaysStopped(db, season, rounds, k + 1, responses);
    } else {
      assert rounds[..k] == rounds;
    }
  }

  // ---------------------------------------------------------------------
  // Nothing is ever overwritten
  // ---------------------------------------------------------------------

  /** `u` holds every row of `t` unchanged, table by table. */
  ghost predicate Grows(u: Db, t: Db)
  {
    Extends(u.races, t.races) && Extends(u.raceResults, t.raceResults) &&
    Extends(u.qualifying, t.qualifying) && Extends(u.fp1, t.fp1) &&
    Extends(u.fp2, t.fp2) && Extends(u.fp3, t.fp3) &&
    u.trainingData == t.trainingData && u.modelMeta == t.modelMeta
  }

  lemma PracticeBatchGrows(db: Db, season: int, rnd: int, s: Session, resp: Response<PracticeObj>)
    requires PracticeBatch(db, season, rnd, s, resp).Done?
    ensures Grows(PracticeBatch(db, season, rnd, s, resp).value.0, db)
  {
    InsertAllKeeps(PracticeTable(db, s), PracticeRows(season, rnd, s, resp).value);
  }

  lemma {:induction false} PracticeStepsGrow(db: Db, season: int, rnd: int, ss: seq<Session>, r: RoundResponses)
    requires PracticeSteps(db, season, rnd, ss, r).Done?
    ensures Grows(PracticeSteps(db, season, rnd, ss, r).value, db)
    decreases |ss|
  {
    if ss != [] {
      var init := ss[..|ss| - 1];
      PracticeStepsGrow(db, season, rnd, init, r);
      var d := PracticeSteps(db, season, rnd, init, r).value;
      PracticeBatchGrows(d, season, rnd, ss[|ss| - 1], PracticeResponse(r, ss[|ss| - 1]));
    }
  }

  lemma RoundStepGrows(db: Db, season: int, rnd: int, r: RoundResponses)
    requires RoundStep(db, season, rnd, r).Done?
    ensures Grows(RoundStep(db, season, rnd, r).value, db)
  {
    PracticeStepsGrow(db, season, rnd, SESSIONS, r);
    var d1 := PracticeSteps(db, season, rnd, SESSIONS, r).value;
    InsertAllKeeps(d1.qualifying, QualyRows(season, rnd, r.qualy).value);
    var d2 := QualyBatch(d1, season, rnd, r.qualy).value.0;
    InsertAllKeeps(d2.raceResults, ResultRows(season, rnd, r.race).value);
  }

  lemma {:induction false} RunRoundsGrows(db: Db, season: int, rounds: seq<int>, responses: int -> RoundResponses)
    ensures Grows(RunRounds(db, season, rounds, responses).0, db)
    decreases |rounds|
  {
    if rounds != [] {
      RunRoundsGrows(db, season, rounds[..|rounds| - 1], responses);
      var (d, stopped) := RunRounds(db, season, rounds[..|rounds| - 1], responses);
      var rnd := rounds[|rounds| - 1];
      if !stopped && RoundStep(d, season, rnd, responses(rnd)).Done? {
        RoundStepGrows(d, season, rnd, responses(rnd));
      }
    }
  }

  /** A backfill never changes or removes a row that was already in any
      table; it only adds rows. */
  lemma BackfillGrows(db: Db, season: int, calendar: Response<seq<CalendarEntry>>, responses: int -> RoundResponses)
    ensures Grows(Backfill(db, season, calendar, responses), db)
  {
    match CalendarBatch(db, season, calendar)
    case Crashed =>
    case Done((d, rounds)) =>
      var rows := MapAll(CalendarEntries(Fetch(calendar)).value, CalendarRowFn(season)).value;
      InsertAllKeeps(db.races, rows);
      RunRoundsGrows(d, season, rounds, responses);
  }
}
