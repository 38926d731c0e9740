/** The relational store the scripts write: one map per table, keyed by the
    table's conflict key, and a connection whose uncommitted work can be
    committed or rolled back. */
module Store {
  import opened Wrappers
  import opened Payloads

  /** The conflict key `(season, round, driver_id)` of every per-driver
      result table. The key columns are taken to be NOT NULL. */
  datatype Key = Key(season: int, round: int, driver: string)

  /** A row of `f1_races`, keyed by `race_id`; `date` is a day number. */
  datatype RaceRow = RaceRow(
    season: int,
    round: int,
    name: Option<string>,
    date: Option<int>,
    time: Option<string>,
    circuit: Option<string>,
    country: Option<string>)

  /** A row of `f1_race_results`. */
  datatype ResultRow = ResultRow(
    raceId: Option<string>,
    team: Option<string>,
    position: Option<int>,
    status: Option<string>)

  /** A row of `f1_qualifying_results`. The daily pipeline writes the grid
      slot to `position`, the season backfill writes the raw value to
      `grid_position`; the table holds both columns. */
  datatype QualyRow = QualyRow(
    raceId: Option<string>,
    team: Option<string>,
    position: Option<int>,
    gridPosition: Option<Scalar>,
    q1: Option<string>,
    q2: Option<string>,
    q3: Option<string>)

  /** A row of `f1_fp1_results`, `f1_fp2_results` or `f1_fp3_results`. */
  datatype PracticeRow = PracticeRow(raceId: Option<string>, team: Option<string>, bestTime: Option<string>)

  /** A row of `f1_training_data`, read back for retraining. */
  datatype TrainingRow = TrainingRow(
    qualyScore: Option<real>,
    constructorScore: Option<real>,
    avgDriverForm: Option<real>,
    winner: Option<int>)

  /** A row of `f1_model_meta`; `trainedAt` is the database clock's reading. */
  datatype MetaRow = MetaRow(trainedAt: int, rowsUsed: nat)

  datatype Db = Db(
    races: map<string, RaceRow>,
    raceResults: map<Key, ResultRow>,
    qualifying: map<Key, QualyRow>,
    fp1: map<Key, PracticeRow>,
    fp2: map<Key, PracticeRow>,
    fp3: map<Key, PracticeRow>,
    trainingData: seq<TrainingRow>,
    modelMeta: seq<MetaRow>)

  /** `INSERT ... ON CONFLICT DO NOTHING` of one row. */
  function InsertIfAbsent<K, V>(t: map<K, V>, k: K, v: V): map<K, V>
  {
    if k in t then t else t[k := v]
  }

  /** The rows inserted one after another with `ON CONFLICT DO NOTHING`. */
  function InsertAll<K, V>(t: map<K, V>, rows: seq<(K, V)>): map<K, V>
    decreases |rows|
  {
    if rows == [] then t
    else
      var last := rows[|rows| - 1];
      InsertIfAbsent(InsertAll(t, rows[..|rows| - 1]), last.0, last.1)
  }

  /** The keys that `rows` write. */
  function KeysOf<K, V>(rows: seq<(K, V)>): set<K>
  {
    set i | 0 <= i < |rows| :: rows[i].0
  }

  /** Insert-if-absent never changes a row that is already there, and the
      table gains exactly the keys of the rows. */
  lemma {:induction false} InsertAllKeeps<K, V>(t: map<K, V>, rows: seq<(K, V)>)
    ensures forall k :: k in t ==> k in InsertAll(t, rows) && InsertAll(t, rows)[k] == t[k]
    ensures InsertAll(t, rows).Keys == t.Keys + KeysOf(rows)
    decreases |rows|
  {
    if rows != [] {
      var init := rows[..|rows| - 1];
      InsertAllKeeps(t, init);
      assert KeysOf(rows) == KeysOf(init) + {rows[|rows| - 1].0} by {
        forall k | k in KeysOf(rows) ensures k in KeysOf(init) + {rows[|rows| - 1].0} {
          var i :| 0 <= i < |rows| && rows[i].0 == k;
          if i < |rows| - 1 { assert init[i] == rows[i]; }
        }
        forall k | k in KeysOf(init) ensures k in KeysOf(rows) {
          var i :| 0 <= i < |init| && init[i].0 == k;
          assert rows[i] == init[i];
        }
      }
    }
  }

  /** The first write of a key wins: a key the table did not hold ends up
      with the value of the first row that carries it. */
  lemma {:induction false} InsertAllFirstWins<K, V>(t: map<K, V>, rows: seq<(K, V)>, j: nat)
    requires j < |rows| && rows[j].0 !in t
    requires forall i :: 0 <= i < j ==> rows[i].0 != rows[j].0
    ensures rows[j].0 in InsertAll(t, rows) && InsertAll(t, rows)[rows[j].0] == rows[j].1
    decreases |rows|
  {
    var init := rows[..|rows| - 1];
    if j == |rows| - 1 {
      InsertAllKeeps(t, init);
    } else {
      assert init[j] == rows[j];
      InsertAllFirstWins(t, init, j);
    }
  }

  /** Rows whose keys are all present already change nothing. */
  lemma {:induction false} InsertAllPresent<K, V>(t: map<K, V>, rows: seq<(K, V)>)
    requires forall i :: 0 <= i < |rows| ==> rows[i].0 in t
    ensures InsertAll(t, rows) == t
    decreases |rows|
  {
    if rows != [] {
      InsertAllPresent(t, rows[..|rows| - 1]);
    }
  }

  /** Inserting the same rows a second time leaves the table as the first
      time left it. */
  lemma InsertAllIdempotent<K, V>(t: map<K, V>, rows: seq<(K, V)>)
    ensures InsertAll(InsertAll(t, rows), rows) == InsertAll(t, rows)
  {
    InsertAllKeeps(t, rows);
    InsertAllPresent(InsertAll(t, rows), rows);
  }

  /** `t` is contained in `u`: every row of `t` is in `u`, unchanged. */
  ghost predicate Extends<K, V>(u: map<K, V>, t: map<K, V>)
  {
    forall k :: k in t ==> k in u && u[k] == t[k]
  }

  /** A database session: what has been committed, and what this session
      sees, including its uncommitted work. */
  class Connection {
    var committed: Db
    var pending: Db

    /** `psycopg2.connect`: a fresh session has nothing uncommitted. */
    constructor Open(db: Db)
      ensures committed == db && pending == db
    {
      committed := db;
      pending := db;
    }

    /** `conn.commit()`. */
    method Commit()
      modifies this
      ensures committed == old(pending) && pending == old(pending)
    {
      committed := pending;
    }

    /** `conn.rollback()`: the uncommitted work is discarded. */
    method Rollback()
      modifies this
      ensures committed == old(committed) && pending == old(committed)
    {
      pending := committed;
    }
  }
}
