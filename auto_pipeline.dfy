/** The daily pipeline (`auto_pipeline.py`): race results and qualifying are
    synced for every race whose date has passed, one transaction per race,
    and the model-metadata table is replaced after retraining. */
module AutoPipeline {
  import opened Wrappers
  import opened PyText
  import opened Payloads
  import opened Store

  // ---------------------------------------------------------------------
  // Position normalisation
  // ---------------------------------------------------------------------

  /** `int(raw) if raw and str(raw).isdigit() else None` for a finishing
      position: an integer must be truthy (non-zero) and print as digits
      (non-negative); a string must be non-empty and all digits. */
  function RacePosition(raw: Option<Scalar>): (p: Option<int>)
    ensures p.Some? <==> (raw.Some? && raw.value.Int? && raw.value.i > 0) ||
                         (raw.Some? && raw.value.Str? && IsDigitString(raw.value.s))
    ensures p.Some? ==> p.value >= 0
    ensures raw.Some? && raw.value.Str? && IsDigitString(raw.value.s) ==> p == Some(DigitsValue(raw.value.s))
  {
    match raw
    case None => None
    case Some(Int(i)) => if i != 0 && i >= 0 then Some(i) else None
    case Some(Str(s)) => if s != "" && IsDigitString(s) then Some(DigitsValue(s)) else None
  }

  /** `int(raw) if str(raw).isdigit() else None` for a grid slot: no
      truthiness test, and `str(None)` is `"None"`, which is not digits. */
  function GridPosition(raw: Option<Scalar>): (p: Option<int>)
    ensures p.Some? <==> (raw.Some? && raw.value.Int? && raw.value.i >= 0) ||
                         (raw.Some? && raw.value.Str? && IsDigitString(raw.value.s))
    ensures p.Some? ==> p.value >= 0
  {
    match raw
    case None => None
    case Some(Int(i)) => if i >= 0 then Some(i) else None
    case Some(Str(s)) => if IsDigitString(s) then Some(DigitsValue(s)) else None
  }

  /** The finishing-position rule is the grid rule with one more case
      refused: the integer 0, which is falsy. */
  lemma RacePositionIsStricterGrid(raw: Option<Scalar>)
    ensures RacePosition(raw) == if raw == Some(Int(0)) then None else GridPosition(raw)
  {
  }

  /** A position sent as a number and the same position sent as its decimal
      string are stored alike, except that the number 0 is dropped while the
      string "0" is kept. */
  lemma PositionFormsAgree(n: nat)
    ensures GridPosition(Some(Str(Show(n)))) == GridPosition(Some(Int(n))) == Some(n)
    ensures n > 0 ==> RacePosition(Some(Str(Show(n)))) == RacePosition(Some(Int(n))) == Some(n)
    ensures RacePosition(Some(Str(Show(0)))) == Some(0) && RacePosition(Some(Int(0))) == None
  {
    ShowValue(n);
    ShowValue(0);
  }

  // ---------------------------------------------------------------------
  // Which races are processed
  // ---------------------------------------------------------------------

  /** A `(season, round, race_id)` row of the `f1_races` query. */
  datatype RaceRef = RaceRef(season: int, round: int, raceId: string)

  /** `race_date <= CURRENT_DATE`; a race without a date never qualifies,
      since a comparison with NULL is not true. */
  predicate IsDue(r: RaceRow, today: int)
  {
    r.date.Some? && r.date.value <= today
  }

  /** The rows of `SELECT season, round, race_id FROM f1_races WHERE
      race_date <= CURRENT_DATE`, in the order `scan` gives the table. */
  function DueRaces(races: map<string, RaceRow>, scan: seq<string>, today: int): (due: seq<RaceRef>)
    ensures forall i :: 0 <= i < |due| ==>
      due[i].raceId in races && IsDue(races[due[i].raceId], today) &&
      due[i].season == races[due[i].raceId].season && due[i].round == races[due[i].raceId].round
    ensures forall j :: 0 <= j < |scan| && scan[j] in races && IsDue(races[scan[j]], today) ==>
      exists i :: 0 <= i < |due| && due[i].raceId == scan[j]
    decreases |scan|
  {
    if scan == [] then []
    else
      var rest := DueRaces(races, scan[..|scan| - 1], today);
      var id := scan[|scan| - 1];
      if id in races && IsDue(races[id], today) then
        var due := rest + [RaceRef(races[id].season, races[id].round, id)];
        assert forall i :: 0 <= i < |rest| ==> due[i] == rest[i];
        assert due[|rest|].raceId == id;
        due
      else rest
  }

  /** The payload fetched for a race, or `None` when the request, the status
      check or the JSON decoding raised. */
  function Fetched<T>(payloads: map<(int, int), Doc<T>>, r: RaceRef): Option<Doc<T>>
  {
    if (r.season, r.round) in payloads then Some(payloads[(r.season, r.round)]) else None
  }

  // ---------------------------------------------------------------------
  // Section 1: race results, insert-if-absent
  // ---------------------------------------------------------------------

  /** The row one race-result record becomes. A driver id that is missing
      leaves the key column NULL, which the database refuses. */
  function ResultOf(r: RaceRef, e: ResultEntry): (row: Outcome<(Key, ResultRow)>)
    ensures row.Done? <==>
      GetNestedId(e.driver).Done? && GetNestedId(e.driver).value.Some? && GetNestedId(e.team).Done?
    ensures row.Done? ==> row.value.0.season == r.season && row.value.0.round == r.round
    ensures row.Done? ==> GetNestedId(e.driver) == Done(Some(row.value.0.driver))
    ensures row.Done? ==> row.value.1.raceId == Some(r.raceId) && GetNestedId(e.team) == Done(row.value.1.team)
    ensures row.Done? ==> row.value.1.position == RacePosition(Get(e.position)) && row.value.1.status == Get(e.status)
  {
    match (GetNestedId(e.driver), GetNestedId(e.team))
    case (Done(Some(driver)), Done(team)) =>
      Done((Key(r.season, r.round, driver), ResultRow(Some(r.raceId), team, RacePosition(Get(e.position)), Get(e.status))))
    case _ => Crashed
  }

  function ResultOfFn(r: RaceRef): ResultEntry -> Outcome<(Key, ResultRow)>
  {
    e => ResultOf(r, e)
  }

  /** The records of `data.get("races", {}).get("results", [])`. */
  function ResultEntries(payload: Option<Doc<RaceObj>>): Outcome<seq<ResultEntry>>
  {
    match payload
    case None => Crashed
    case Some(doc) =>
      match doc.races
      case Absent => Done([])
      case Null => Crashed
      case Val(race) => GetList(race.results)
  }

  /** All rows of one race, or `Crashed` if anything in its `try` raises. */
  function ResultRows(r: RaceRef, payload: Option<Doc<RaceObj>>): Outcome<seq<(Key, ResultRow)>>
  {
    match ResultEntries(payload)
    case Crashed => Crashed
    case Done(entries) => MapAll(entries, ResultOfFn(r))
  }

  /** The committed effect of one race's `try` block: all its rows inserted
      if nothing raised, nothing at all otherwise. */
  function ResultBatch(db: Db, r: RaceRef, payload: Option<Doc<RaceObj>>): Db
  {
    match ResultRows(r, payload)
    case Crashed => db
    case Done(rows) => db.(raceResults := InsertAll(db.raceResults, rows))
  }

  /** One iteration of the race-results loop: the inserts go into the
      session one by one; the race is committed at the end, or rolled back
      as soon as anything raises. */
  method SyncRaceResults(conn: Connection, r: RaceRef, payload: Option<Doc<RaceObj>>)
    requires conn.pending == conn.committed
    modifies conn
    ensures conn.pending == conn.committed
    ensures conn.committed == ResultBatch(old(conn.committed), r, payload)
  {
    var entries := ResultEntries(payload);
    if entries.Crashed? {
      conn.Rollback();
      return;
    }
    var xs := entries.value;
    ghost var rows: seq<(Key, ResultRow)> := [];
    for i := 0 to |xs|
      invariant conn.committed == old(conn.committed)
      invariant |rows| == i
      invariant forall j :: 0 <= j < i ==> ResultOf(r, xs[j]) == Done(rows[j])
      invariant conn.pending == conn.committed.(raceResults := InsertAll(conn.committed.raceResults, rows))
    {
      var row := ResultOf(r, xs[i]);
      if row.Crashed? {
        conn.Rollback();
        return;
      }
      conn.pending := conn.pending.(raceResults := InsertIfAbsent(conn.pending.raceResults, row.value.0, row.value.1));
      assert (rows + [row.value])[..i] == rows;
      rows := rows + [row.value];
    }
    assert MapAll(xs, ResultOfFn(r)).value == rows;
    conn.Commit();
  }

  // ---------------------------------------------------------------------
  // Section 2: qualifying, overwrite of four columns
  // ---------------------------------------------------------------------

  /** `ON CONFLICT ... DO UPDATE SET position, q1_time, q2_time, q3_time =
      EXCLUDED....`: the four columns come from the new row, the others stay. */
  function Overwrite(current: QualyRow, incoming: QualyRow): QualyRow
  {
    current.(position := incoming.position, q1 := incoming.q1, q2 := incoming.q2, q3 := incoming.q3)
  }

  function Upsert(t: map<Key, QualyRow>, k: Key, v: QualyRow): map<Key, QualyRow>
  {
    if k in t then t[k := Overwrite(t[k], v)] else t[k := v]
  }

  /** The rows upserted one after another. */
  function UpsertAll(t: map<Key, QualyRow>, rows: seq<(Key, QualyRow)>): map<Key, QualyRow>
    decreases |rows|
  {
    if rows == [] then t
    else
      var last := rows[|rows| - 1];
      Upsert(UpsertAll(t, rows[..|rows| - 1]), last.0, last.1)
  }

  /** The value of the first row with key `k`. */
  function FirstWith(rows: seq<(Key, QualyRow)>, k: Key): (v: Option<QualyRow>)
    ensures v.Some? <==> k in KeysOf(rows)
    decreases |rows|
  {
    if rows == [] then None
    else
      var init := rows[..|rows| - 1];
      assert KeysOf(rows) == KeysOf(init) + {rows[|rows| - 1].0} by {
        assert forall i :: 0 <= i < |init| ==> init[i] == rows[i];
      }
      match FirstWith(init, k)
      case Some(v) => Some(v)
      case None => if rows[|rows| - 1].0 == k then Some(rows[|rows| - 1].1) else None
  }

  /** The value of the last row with key `k`. */
  function LastWith(rows: seq<(Key, QualyRow)>, k: Key): (v: Option<QualyRow>)
    ensures v.Some? <==> k in KeysOf(rows)
    decreases |rows|
  {
    if rows == [] then None
    else
      var init := rows[..|rows| - 1];
      assert KeysOf(rows) == KeysOf(init) + {rows[|rows| - 1].0} by {
        assert forall i :: 0 <= i < |init| ==> init[i] == rows[i];
      }
      if rows[|rows| - 1].0 == k then Some(rows[|rows| - 1].1) else LastWith(init, k)
  }

  /** What the upserts leave under `k`: a key no row carries keeps its row;
      otherwise the row already there (or else the first row inserted under
      `k`) with the four columns of the LAST row for `k`. */
  lemma {:induction false} UpsertAllAt(t: map<Key, QualyRow>, rows: seq<(Key, QualyRow)>, k: Key)
    ensures k in UpsertAll(t, rows) <==> k in t || k in KeysOf(rows)
    ensures k in UpsertAll(t, rows) ==> (UpsertAll(t, rows)[k] ==
      match LastWith(rows, k)
      case None => t[k]
      case Some(last) => Overwrite(if k in t then t[k] else FirstWith(rows, k).value, last))
    decreases |rows|
  {
    if rows != [] {
      var init := rows[..|rows| - 1];
      UpsertAllAt(t, init, k);
    }
  }

  /** Upserting the same qualifying rows twice gives the table that
      upserting them once gives. */
  lemma UpsertAllIdempotent(t: map<Key, QualyRow>, rows: seq<(Key, QualyRow)>)
    ensures UpsertAll(UpsertAll(t, rows), rows) == UpsertAll(t, rows)
  {
    var once := UpsertAll(t, rows);
    var twice := UpsertAll(once, rows);
    forall k | k in once || k in twice ensures k in once && k in twice && twice[k] == once[k] {
      UpsertAllAt(t, rows, k);
      UpsertAllAt(once, rows, k);
    }
  }

  /** A row that was already in the table keeps its `race_id`, `team_id`
      and `grid_position`; only the four overwritten columns can change. */
  lemma UpsertAllKeepsOtherColumns(t: map<Key, QualyRow>, rows: seq<(Key, QualyRow)>, k: Key)
    requires k in t
    ensures k in UpsertAll(t, rows)
    ensures UpsertAll(t, rows)[k].raceId == t[k].raceId
    ensures UpsertAll(t, rows)[k].team == t[k].team
    ensures UpsertAll(t, rows)[k].gridPosition == t[k].gridPosition
  {
    UpsertAllAt(t, rows, k);
  }

  /** The row one qualifying record becomes. The insert names no `team_id`
      or `grid_position`, so those are NULL on a fresh row. */
  function QualyOf(r: RaceRef, e: QualyEntry): (row: Outcome<(Key, QualyRow)>)
    ensures row.Done? <==> Get(e.driverId).Some?
    ensures row.Done? ==> row.value.0.season == r.season && row.value.0.round == r.round
    ensures row.Done? ==> Get(e.driverId) == Some(row.value.0.driver) && row.value.1.raceId == Some(r.raceId)
    ensures row.Done? ==> row.value.1.position == GridPosition(Get(e.gridPosition))
    ensures row.Done? ==> row.value.1.q1 == Get(e.q1) && row.value.1.q2 == Get(e.q2) && row.value.1.q3 == Get(e.q3)
    ensures row.Done? ==> row.value.1.team.None? && row.value.1.gridPosition.None?
  {
    match Get(e.driverId)
    case None => Crashed
    case Some(driver) =>
      Done((Key(r.season, r.round, driver),
            QualyRow(Some(r.raceId), None, GridPosition(Get(e.gridPosition)), None, Get(e.q1), Get(e.q2), Get(e.q3))))
  }

  function QualyOfFn(r: RaceRef): QualyEntry -> Outcome<(Key, QualyRow)>
  {
    e => QualyOf(r, e)
  }

  /** The records of `data.get("races", {}).get("qualyResults", [])`. */
  function QualyEntries(payload: Option<Doc<QualyObj>>): Outcome<seq<QualyEntry>>
  {
    match payload
    case None => Crashed
    case Some(doc) =>
      match doc.races
      case Absent => Done([])
      case Null => Crashed
      case Val(race) => GetList(race.qualyResults)
  }

  function QualyRows(r: RaceRef, payload: Option<Doc<QualyObj>>): Outcome<seq<(Key, QualyRow)>>
  {
    match QualyEntries(payload)
    case Crashed => Crashed
    case Done(entries) => MapAll(entries, QualyOfFn(r))
  }

  /** The committed effect of one race's qualifying `try` block. */
  function QualyBatch(db: Db, r: RaceRef, payload: Option<Doc<QualyObj>>): Db
  {
    match QualyRows(r, payload)
    case Crashed => db
    case Done(rows) => db.(qualifying := UpsertAll(db.qualifying, rows))
  }

  method SyncQualifying(conn: Connection, r: RaceRef, payload: Option<Doc<QualyObj>>)
    requires conn.pending == conn.committed
    modifies conn
    ensures conn.pending == conn.committed
    ensures conn.committed == QualyBatch(old(conn.committed), r, payload)
  {
    var entries := QualyEntries(payload);
    if entries.Crashed? {
      conn.Rollback();
      return;
    }
    var xs := entries.value;
    ghost var rows: seq<(Key, QualyRow)> := [];
    for i := 0 to |xs|
      invariant conn.committed == old(conn.committed)
      invariant |rows| == i
      invariant forall j :: 0 <= j < i ==> QualyOf(r, xs[j]) == Done(rows[j])
      invariant conn.pending == conn.committed.(qualifying := UpsertAll(conn.committed.qualifying, rows))
    {
      var row := QualyOf(r, xs[i]);
      if row.Crashed? {
        conn.Rollback();
        return;
      }
      conn.pending := conn.pending.(qualifying := Upsert(conn.pending.qualifying, row.value.0, row.value.1));
      assert (rows + [row.value])[..i] == rows;
      rows := rows + [row.value];
    }
    assert MapAll(xs, QualyOfFn(r)).value == rows;
    conn.Commit();
  }

  // ---------------------------------------------------------------------
  // Properties of one race's batches
  // ---------------------------------------------------------------------

  /** Re-ingesting the same race-results payload changes nothing. */
  lemma ResultBatchIdempotent(db: Db, r: RaceRef, payload: Option<Doc<RaceObj>>)
    ensures ResultBatch(ResultBatch(db, r, payload), r, payload) == ResultBatch(db, r, payload)
  {
    if ResultRows(r, payload).Done? {
      InsertAllIdempotent(db.raceResults, ResultRows(r, payload).value);
    }
  }

  /** Re-applying the same qualifying payload changes nothing. */
  lemma QualyBatchIdempotent(db: Db, r: RaceRef, payload: Option<Doc<QualyObj>>)
    ensures QualyBatch(QualyBatch(db, r, payload), r, payload) == QualyBatch(db, r, payload)
  {
    if QualyRows(r, payload).Done? {
      UpsertAllIdempotent(db.qualifying, QualyRows(r, payload).value);
    }
  }

  /** A race's result batch keeps every existing row, and only adds rows of
      its own season and round. */
  lemma ResultBatchLocal(db: Db, r: RaceRef, payload: Option<Doc<RaceObj>>)
    ensures var after := ResultBatch(db, r, payload);
      after == db.(raceResults := after.raceResults) &&
      Extends(after.raceResults, db.raceResults) &&
      forall k :: k in after.raceResults && k !in db.raceResults ==> k.season == r.season && k.round == r.round
  {
    if ResultRows(r, payload).Done? {
      var rows := ResultRows(r, payload).value;
      InsertAllKeeps(db.raceResults, rows);
    }
  }

  /** A race's qualifying batch touches only keys of its own season and
      round, and leaves the other tables alone. */
  lemma QualyBatchLocal(db: Db, r: RaceRef, payload: Option<Doc<QualyObj>>, k: Key)
    requires k.season != r.season || k.round != r.round
    ensures var after := QualyBatch(db, r, payload);
      after == db.(qualifying := after.qualifying) &&
      (k in after.qualifying <==> k in db.qualifying) &&
      (k in db.qualifying ==> after.qualifying[k] == db.qualifying[k])
  {
    if QualyRows(r, payload).Done? {
      var rows := QualyRows(r, payload).value;
      assert k !in KeysOf(rows);
      UpsertAllAt(db.qualifying, rows, k);
    }
  }

  /** A batch in which any record raises commits nothing, even the rows
      before it. */
  lemma ResultBatchAllOrNothing(db: Db, r: RaceRef, doc: Doc<RaceObj>, j: nat)
    requires doc.races.Val? && doc.races.v.results.Val? && j < |doc.races.v.results.v|
    requires ResultOf(r, doc.races.v.results.v[j]).Crashed?
    ensures ResultBatch(db, r, Some(doc)) == db
  {
  }

  // ---------------------------------------------------------------------
  // The whole run
  // ---------------------------------------------------------------------

  /** Section 1 over the due races, in order. */
  function SyncAllResults(db: Db, due: seq<RaceRef>, payloads: map<(int, int), Doc<RaceObj>>): Db
    decreases |due|
  {
    if due == [] then db
    else
      var r := due[|due| - 1];
      ResultBatch(SyncAllResults(db, due[..|due| - 1], payloads), r, Fetched(payloads, r))
  }

  /** Section 2 over the due races, in order. */
  function SyncAllQualifying(db: Db, due: seq<RaceRef>, payloads: map<(int, int), Doc<QualyObj>>): Db
    decreases |due|
  {
    if due == [] then db
    else
      var r := due[|due| - 1];
      QualyBatch(SyncAllQualifying(db, due[..|due| - 1], payloads), r, Fetched(payloads, r))
  }

  /** Section 3: if the fit returns, `f1_model_meta` is emptied and given
      one row; if it raises, the run stops with the table as it was. */
  function Retrain(db: Db, now: int, fitSucceeds: bool): Db
  {
    if fitSucceeds then db.(modelMeta := [MetaRow(now, |db.trainingData|)]) else db
  }

  /** What a run of `run_pipeline` leaves committed. */
  function Pipeline(db: Db, today: int, scan: seq<string>,
                    racePayloads: map<(int, int), Doc<RaceObj>>,
                    qualyPayloads: map<(int, int), Doc<QualyObj>>,
                    now: int, fitSucceeds: bool): Db
  {
    var due := DueRaces(db.races, scan, today);
    Retrain(SyncAllQualifying(SyncAllResults(db, due, racePayloads), due, qualyPayloads), now, fitSucceeds)
  }

  /** Section 1: every due race's results, one race after another. */
  method SyncResultsSection(conn: Connection, due: seq<RaceRef>, racePayloads: map<(int, int), Doc<RaceObj>>)
    requires conn.pending == conn.committed
    modifies conn
    ensures conn.pending == conn.committed
    ensures conn.committed == SyncAllResults(old(conn.committed), due, racePayloads)
  {
    for i := 0 to |due|
      invariant conn.pending == conn.committed
      invariant conn.committed == SyncAllResults(old(conn.committed), due[..i], racePayloads)
    {
      assert due[..i + 1][..i] == due[..i];
      SyncRaceResults(conn, due[i], Fetched(racePayloads, due[i]));
    }
    assert due[..|due|] == due;
  }

  /** Section 2: every due race's qualifying, one race after another. */
  method SyncQualifyingSection(conn: Connection, due: seq<RaceRef>, qualyPayloads: map<(int, int), Doc<QualyObj>>)
    requires conn.pending == conn.committed
    modifies conn
    ensures conn.pending == conn.committed
    ensures conn.committed == SyncAllQualifying(old(conn.committed), due, qualyPayloads)
  {
    for i := 0 to |due|
      invariant conn.pending == conn.committed
      invariant conn.committed == SyncAllQualifying(old(conn.committed), due[..i], qualyPayloads)
    {
      assert due[..i + 1][..i] == due[..i];
      SyncQualifying(conn, due[i], Fetched(qualyPayloads, due[i]));
    }
    assert due[..|due|] == due;
  }

  /** `run_pipeline`: the races due by today, their results, their
      qualifying, then the retraining step. */
  method RunPipeline(conn: Connection, today: int, scan: seq<string>,
                     racePayloads: map<(int, int), Doc<RaceObj>>,
                     qualyPayloads: map<(int, int), Doc<QualyObj>>,
                     now: int, fitSucceeds: bool)
    requires conn.pending == conn.committed
    modifies conn
    ensures conn.committed == Pipeline(old(conn.committed), today, scan, racePayloads, qualyPayloads, now, fitSucceeds)
  {
    var due := DueRaces(conn.committed.races, scan, today);
    SyncResultsSection(conn, due, racePayloads);
    SyncQualifyingSection(conn, due, qualyPayloads);
    if fitSucceeds {
      var rowsUsed := |conn.pending.trainingData|;
      conn.pending := conn.pending.(modelMeta := []);
      conn.pending := conn.pending.(modelMeta := conn.pending.modelMeta + [MetaRow(now, rowsUsed)]);
      conn.Commit();
    }
  }


  /** Sections 1 and 2 touch only the result and qualifying tables. */
  lemma {:induction false} SyncAllKeepsOthers(db: Db, due: seq<RaceRef>,
                                                rp: map<(int, int), Doc<RaceObj>>,
                                                qp: map<(int, int), Doc<QualyObj>>)
    ensures var after := SyncAllQualifying(SyncAllResults(db, due, rp), due, qp);
      after == db.(raceResults := after.raceResults, qualifying := after.qualifying) &&
      Extends(after.raceResults, db.raceResults)
  {
    SyncResultsKeeps(db, due, rp);
    SyncQualifyingKeeps(SyncAllResults(db, due, rp), due, qp);
  }

  lemma {:induction false} SyncResultsKeeps(db: Db, due: seq<RaceRef>, rp: map<(int, int), Doc<RaceObj>>)
    ensures var after := SyncAllResults(db, due, rp);
      after == db.(raceResults := after.raceResults) && Extends(after.raceResults, db.raceResults)
    decreases |due|
  {
    if due != [] {
      var mid := SyncAllResults(db, due[..|due| - 1], rp);
      SyncResultsKeeps(db, due[..|due| - 1], rp);
      ResultBatchLocal(mid, due[|due| - 1], Fetched(rp, due[|due| - 1]));
    }
  }

  lemma {:induction false} SyncQualifyingKeeps(db: Db, due: seq<RaceRef>, qp: map<(int, int), Doc<QualyObj>>)
    ensures var after := SyncAllQualifying(db, due, qp);
      after == db.(qualifying := after.qualifying)
    decreases |due|
  {
    if due != [] {
      SyncQualifyingKeeps(db, due[..|due| - 1], qp);
      var mid := SyncAllQualifying(db, due[..|due| - 1], qp);
      if QualyRows(due[|due| - 1], Fetched(qp, due[|due| - 1])).Done? {
        assert QualyBatch(mid, due[|due| - 1], Fetched(qp, due[|due| - 1])) == mid.(qualifying := QualyBatch(mid, due[|due| - 1], Fetched(qp, due[|due| - 1])).qualifying);
      }
    }
  }

  /** After a run whose fit returned, `f1_model_meta` holds exactly one row,
      and its `rows_used` is the number of rows of `f1_training_data`. A run
      never changes an existing race result, nor the race calendar. */
  lemma PipelineOutcome(db: Db, today: int, scan: seq<string>,
                        rp: map<(int, int), Doc<RaceObj>>, qp: map<(int, int), Doc<QualyObj>>,
                        now: int, fitSucceeds: bool)
    ensures var after := Pipeline(db, today, scan, rp, qp, now, fitSucceeds);
      (fitSucceeds ==> after.modelMeta == [MetaRow(now, |db.trainingData|)]) &&
      (!fitSucceeds ==> after.modelMeta == db.modelMeta) &&
      after.trainingData == db.trainingData && after.races == db.races &&
      Extends(after.raceResults, db.raceResults)
  {
    SyncAllKeepsOthers(db, DueRaces(db.races, scan, today), rp, qp);
  }

  /** Every race the run syncs is one whose date has passed, and every race
      of the table whose date has passed is synced. */
  lemma DueRacesExact(races: map<string, RaceRow>, scan: seq<string>, today: int, id: string)
    requires forall x :: x in races <==> x in scan
    requires id in races
    ensures IsDue(races[id], today) ==> exists i :: 0 <= i < |DueRaces(races, scan, today)| && DueRaces(races, scan, today)[i].raceId == id
    ensures (exists i :: 0 <= i < |DueRaces(races, scan, today)| && DueRaces(races, scan, today)[i].raceId == id) ==> IsDue(races[id], today)
  {
    var due := DueRaces(races, scan, today);
    if IsDue(races[id], today) {
      var j :| 0 <= j < |scan| && scan[j] == id;
      assert scan[j] in races && IsDue(races[scan[j]], today);
    } else {
      forall i | 0 <= i < |due| ensures due[i].raceId != id {
        assert due[i].raceId in races && IsDue(races[due[i].raceId], today);
      }
    }
  }
}
