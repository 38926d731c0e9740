# F1 Winner AI — a Dafny model of its ingestion and feature rules

This project models the deterministic rules inside the F1 Winner AI scripts. The scripts fetch race data from public racing APIs into Postgres, build a feature frame, train a winner classifier and show the next race on a web page. The model covers:

- **The daily pipeline** (`auto_pipeline.py`), in module `AutoPipeline`.
  - Races whose date has passed are selected.
  - Race results are inserted if absent, in one transaction per race, and rolled back when anything in that race raises.
  - Qualifying rows are upserted, overwriting exactly four columns.
  - After the fit, `f1_model_meta` is emptied and given one row.
- **The season backfill** (`backfill_season.py`), in module `BackfillSeason`.
  - The calendar is loaded and committed.
  - For every round: three practice sessions, qualifying and the race, each mapped record by record and inserted if absent, then one commit per round.
  - An exception that escapes ends the script.
- **Feature building** (`feature_builder.py`), in module `FeatureBuilder`.
  - Lap-time parsing.
  - The ordered fill cascade, including the column medians.
  - The training and prediction split.
  - The data frame is a class whose column map the cleaning steps reassign.
- **The DNF export** (`backfill_dnf_to_csv.py`), in module `DnfBackfill`.
  - The keyword classifier of retirement reasons.
  - The season, round and result loops that collect the export rows.
- **The web page's race selection** (`app.py`), in module `RaceSelection`: the upcoming race and the latest completed race of 2026.

Four shared modules support them:

- `Wrappers`: `Option`, and `Outcome` (a value, or an exception nothing catches).
- `PyText`: `isdigit`, `int()`, `float()`, `lower()` and substring search, over stated grammars.
- `Payloads`: JSON payloads. A key is missing, `null` or present, and `d.get(k)` differs from `d[k]` exactly on a missing key.
- `Store`: the tables as maps keyed by their conflict keys, and a `Connection` class with `committed` and `pending` states.

Each loop of the scripts is a `method` proved equal to a specification function: `MapAll`, `FlatMap`, `InsertAll`, `UpsertAll`, or the per-script `...Batch` and `...Rows` functions. The properties are then proved about those functions.

How the scripts write, as the model states it:

- The daily pipeline commits once per race (`auto_pipeline.py`) and the season backfill once per round (`backfill_season.py`), so earlier commits survive a later failure.
- Race results, and every table of the season backfill, are written insert-if-absent: the first write of a key wins and later corrections are dropped. Only the daily pipeline's qualifying sync overwrites, and only four columns.
- The two writers of `f1_race_results` disagree on positions. The daily pipeline keeps a numeric string and drops 0. The backfill drops every string and keeps 0 and negative numbers (`BackfillSeason.PositionWritersDiffer`).
- The writers also use different columns:
  - The daily pipeline fills qualifying `position`; the backfill fills `grid_position`, which is the column the feature query reads.
  - The daily pipeline stores the API's `status` in the race-result status column; the backfill stores the `retired` text there.

## Model

| member | source | states |
|---|---|---|
| Wrappers.MapAll | backfill_season.py:74-83 | A record-by-record row-building loop succeeds exactly when every record's mapping succeeds; the rows are then one per record, in order. |
| Wrappers.FlatMap | backfill_dnf_to_csv.py:38-69 | A loop that appends zero or more rows per element succeeds exactly when no element raises. |
| Wrappers.FlatMapStep | backfill_dnf_to_csv.py:39-69 | One pass of an appending loop: a raising element makes the whole run raise; otherwise the accumulator grows by exactly that element's rows. |
| Wrappers.FlatMapMembers | backfill_dnf_to_csv.py:38-69 | Every appended row comes from some element that did not raise. |
| Wrappers.FlatMapIncludes | backfill_dnf_to_csv.py:38-69 | Every row an element produces is in the result of a run that did not raise. |
| Wrappers.FlatMapSorted | backfill_dnf_to_csv.py:38-69 | Pieces that are each in order, and in order with each other, append to a result in order. |
| PyText.Show | auto_pipeline.py:46 | `str(n)` of a natural number is a non-empty digit string. |
| PyText.ShowValue | auto_pipeline.py:46 | Reading `str(n)` back as digits gives `n`. |
| PyText.ShowHasNoSign | auto_pipeline.py:46 | `str(n)` has no sign, dot or colon. |
| PyText.ParseInt | feature_builder.py:88 | `int(s)` succeeds exactly when `s` is an optional sign followed by a digit string. |
| PyText.ParseIntShow | feature_builder.py:88 | `int(str(n))` is `n`, and `int("-" + str(n))` is `-n`. |
| PyText.IndexOf | feature_builder.py:86-87 | The first position of a character, or the length when it does not occur. |
| PyText.DecimalValue | feature_builder.py:88-89 | The value of unsigned decimal digits is never negative. |
| PyText.ParseDecimalParts | feature_builder.py:88-89 | `float("w.f")` for digit strings is the exact decimal `w + f / 10^len(f)`. |
| PyText.DotSplit | feature_builder.py:88-89 | Decimal text `w.f` splits at the dot between its parts. |
| PyText.LowerChar | backfill_dnf_to_csv.py:24 | An ASCII capital maps to its own lower-case letter (code point plus 32); every other character is kept. |
| PyText.Lower | backfill_dnf_to_csv.py:24 | `reason.lower()` keeps the length and lowers each character. |
| PyText.ContainsIff | backfill_dnf_to_csv.py:25-27 | The substring test `x in r` holds exactly when `x` occurs at some position of `r`. |
| Store.InsertAllKeeps | auto_pipeline.py:48-52 | Insert-if-absent never changes an existing row, and the table gains exactly the keys of the rows. |
| Store.InsertAllFirstWins | backfill_season.py:145-150 | A new key ends up with the value of the first row carrying it. |
| Store.InsertAllPresent | backfill_season.py:114-119 | Rows whose keys are all present leave the table unchanged. |
| Store.InsertAllIdempotent | auto_pipeline.py:48-59 | Inserting the same rows twice equals inserting them once. |
| Store.Connection.Open | auto_pipeline.py:20 | A new session has nothing uncommitted. |
| Store.Connection.Commit | auto_pipeline.py:60 | Commit makes the session's pending state the committed state. |
| Store.Connection.Rollback | auto_pipeline.py:62 | Rollback discards the pending state and keeps the committed one. |
| AutoPipeline.RacePosition | auto_pipeline.py:45-46 | A finishing position is stored exactly when the raw value is a positive integer or a non-empty digit string, so 0, "R" and a missing value give None; a digit string gives its value. |
| AutoPipeline.GridPosition | auto_pipeline.py:76-77 | A grid slot is stored exactly when the raw value is a non-negative integer or a digit string, so "0" and 0 give 0 and a missing value gives None. |
| AutoPipeline.RacePositionIsStricterGrid | auto_pipeline.py:46 | The finishing-position rule equals the grid rule except that the integer 0 is refused. |
| AutoPipeline.PositionFormsAgree | auto_pipeline.py:45-46 | A position sent as `n` or as `str(n)` is stored alike, except that 0 is dropped and "0" kept. |
| AutoPipeline.DueRaces | auto_pipeline.py:24-29 | Every selected race is in the table with a date on or before today; every scanned race with such a date is selected. |
| AutoPipeline.DueRacesExact | auto_pipeline.py:24-29 | With the scan covering the table, a race is synced if and only if its date has passed. |
| AutoPipeline.ResultOf | auto_pipeline.py:41-59 | A record gives a row exactly when its `driver` is an object with a driver id and its `team` is absent or an object (a missing driver id would violate the key). The row is keyed by the race's season and round and the record's `driver.driverId`; it carries the race id, `team.teamId`, `RacePosition` of the raw position and the record's `status`. |
| AutoPipeline.SyncRaceResults | auto_pipeline.py:31-62 | One race's loop leaves committed exactly `ResultBatch`: all its rows inserted if nothing raised, nothing otherwise. |
| AutoPipeline.FirstWith | auto_pipeline.py:83-87 | The first row of the batch carrying a key exists exactly when the batch writes that key; with `LastWith`, this is the pointwise specification `UpsertAllAt` is stated in. |
| AutoPipeline.LastWith | auto_pipeline.py:83-87 | The last row of the batch carrying a key exists exactly when the batch writes that key; the `DO UPDATE` columns are taken from it in `UpsertAllAt`. |
| AutoPipeline.UpsertAllAt | auto_pipeline.py:79-95 | After the upserts, a key holds its existing row, or else the first row inserted for it, with position and q1..q3 taken from the last row for that key; other keys are untouched. |
| AutoPipeline.UpsertAllIdempotent | auto_pipeline.py:83-87 | Applying the same qualifying rows twice gives the table that applying them once gives. |
| AutoPipeline.UpsertAllKeepsOtherColumns | auto_pipeline.py:83-87 | An existing qualifying row keeps its race id, team and grid position. |
| AutoPipeline.QualyOf | auto_pipeline.py:75-95 | A record gives a row exactly when it has a `driverId`. The row is keyed by the race's season and round and that driver; it carries the race id, `GridPosition` of the raw value as `position`, q1..q3 as read with `.get`, and no team or grid position. |
| AutoPipeline.SyncQualifying | auto_pipeline.py:65-98 | One race's qualifying loop leaves committed exactly `QualyBatch`: all rows upserted, or nothing. |
| AutoPipeline.ResultBatchIdempotent | auto_pipeline.py:48-59 | Re-ingesting the same race payload changes nothing. |
| AutoPipeline.QualyBatchIdempotent | auto_pipeline.py:79-95 | Re-applying the same qualifying payload changes nothing. |
| AutoPipeline.ResultBatchLocal | auto_pipeline.py:31-62 | A race's result batch keeps every existing row, adds only keys of its own season and round, and touches no other table. |
| AutoPipeline.QualyBatchLocal | auto_pipeline.py:65-98 | A race's qualifying batch leaves every key of other races, and every other table, as it was. |
| AutoPipeline.ResultBatchAllOrNothing | auto_pipeline.py:31-62 | If one record raises, the race commits nothing, not even the rows before it. |
| AutoPipeline.SyncResultsKeeps | auto_pipeline.py:31-62 | The whole results section only adds race-result rows and changes no other table. |
| AutoPipeline.SyncQualifyingKeeps | auto_pipeline.py:65-98 | The whole qualifying section changes only the qualifying table. |
| AutoPipeline.SyncAllKeepsOthers | auto_pipeline.py:23-98 | Sections 1 and 2 together change only the two result tables, and keep every existing race result. |
| AutoPipeline.SyncResultsSection | auto_pipeline.py:31-62 | The results loop leaves committed exactly `SyncAllResults`: each due race's batch in scan order. |
| AutoPipeline.SyncQualifyingSection | auto_pipeline.py:65-98 | The qualifying loop leaves committed exactly `SyncAllQualifying`: each due race's batch in scan order. |
| AutoPipeline.RunPipeline | auto_pipeline.py:19-126 | The run leaves committed exactly `Pipeline`: results, then qualifying, for every due race in scan order, then the meta-table replacement when the fit returns. |
| AutoPipeline.PipelineOutcome | auto_pipeline.py:101-124 | After a returned fit, `f1_model_meta` is exactly one row whose `rows_used` is the number of training rows; otherwise it is unchanged. Training data and the calendar are unchanged, and existing race results are kept. |
| BackfillSeason.Fetch | backfill_season.py:20-24 | `fetch` gives no data for any non-200 status. It raises when there is no response, or when a 200 body is not JSON. |
| BackfillSeason.IntOf | backfill_season.py:52 | `int(r["round"])`: an integer is taken as is; a string gives a value exactly when it parses as an optionally signed decimal integer, and then that value; a missing or null round raises. |
| BackfillSeason.CalendarRowOf | backfill_season.py:40-59 | A calendar record gives a row exactly when the race id is present and non-null, the round converts, `raceName` is present, and the circuit object with its `circuitName` and `country` is present; otherwise it raises. The row is keyed by the race id and carries the season, converted round, race name, date, time, circuit name and country. |
| BackfillSeason.BackfillRaces | backfill_season.py:29-62 | The calendar loop leaves the session's view and its returned rounds exactly as `CalendarBatch` gives them, and commits nothing itself. |
| BackfillSeason.CalendarRounds | backfill_season.py:31-62 | With no data (a status other than 200, or an empty object), the loop returns [] and inserts nothing. Otherwise it returns one round per calendar record, in API order. |
| BackfillSeason.WithPractice | backfill_season.py:85-87 | Writing a practice table replaces the table of that session; the other two sessions and every other table are unchanged. |
| BackfillSeason.PracticeRowOf | backfill_season.py:75-83 | A practice record gives a row exactly when `data["races"]["raceId"]`, a non-null `driverId`, `teamId` and `time` are all present; otherwise it raises. The row is keyed by season, round and the driver id, and carries the race id, team id and the time as best time. |
| BackfillSeason.BackfillPractice | backfill_season.py:64-92 | One session's backfill leaves the view and the count exactly as `PracticeBatch` gives them. |
| BackfillSeason.PracticeNothingToDo | backfill_season.py:66-72 | A non-200 status, a body without `races`, or one without the session's results key gives 0 and no insert. |
| BackfillSeason.QualyRowOf | backfill_season.py:101-112 | A qualifying record gives a row exactly when `data["races"]["raceId"]`, a non-null `driverId`, `teamId` and `gridPosition` are all present (so a missing `gridPosition` raises). The row is keyed by season, round and the driver id, and carries the race id, team id, grid position as given, no finishing position, and q1..q3 (`None` when absent). |
| BackfillSeason.BackfillQualy | backfill_season.py:94-121 | The qualifying backfill leaves the view and the count exactly as `QualyBatch` gives them. |
| BackfillSeason.StoredPosition | backfill_season.py:131-133 | A string position is stored as None; an integer is kept as it is. |
| BackfillSeason.PositionWritersDiffer | backfill_season.py:131-133 | The backfill and the daily pipeline store different positions for "n", 0 and -1. |
| BackfillSeason.ResultRowOf | backfill_season.py:130-143 | A record gives a row exactly when the race id key is present and the driver (with a non-null id) and team objects can be indexed. The row is keyed by season, round and `r["driver"]["driverId"]`; it carries the race id, `r["team"]["teamId"]`, `StoredPosition` of the position and the `retired` text as status. |
| BackfillSeason.BackfillRace | backfill_season.py:123-152 | The race backfill leaves the view and the count exactly as `ResultBatch` gives them. |
| BackfillSeason.CountIgnoresConflicts | backfill_season.py:145-152 | The count is the number of records even when every key is already present and nothing changes. |
| BackfillSeason.BackfillRound | backfill_season.py:165-179 | A round commits exactly `RoundStep` when none of its five backfills raises, and nothing otherwise. |
| BackfillSeason.CrashedPrefix | backfill_season.py:168-170 | A practice session that raises makes the whole round raise. |
| BackfillSeason.RunBackfill | backfill_season.py:156-183 | The script leaves committed exactly `Backfill`: the calendar, then each round in turn until one raises. |
| BackfillSeason.StoppedStaysStopped | backfill_season.py:165-178 | Once a round raises, no later round runs. |
| BackfillSeason.PracticeBatchGrows | backfill_season.py:85-90 | A practice backfill only adds rows. |
| BackfillSeason.PracticeStepsGrow | backfill_season.py:168-170 | The three practice backfills only add rows. |
| BackfillSeason.RoundStepGrows | backfill_season.py:165-178 | A round only adds rows, table by table. |
| BackfillSeason.RunRoundsGrows | backfill_season.py:165-178 | The round loop only adds rows. |
| BackfillSeason.BackfillGrows | backfill_season.py:156-183 | A backfill never changes or removes an existing row of any table. |
| FeatureBuilder.TimeToSeconds | feature_builder.py:82-84 | A missing cell gives None; a number is kept. |
| FeatureBuilder.ColonTime | feature_builder.py:86-88 | A second colon (the two-part unpacking fails), a minutes part `int` refuses, or a seconds part `float` refuses gives None. |
| FeatureBuilder.LapTimeRead | feature_builder.py:86-88 | `m:w.f` with digit parts is `m*60` plus the decimal `w.f`. |
| FeatureBuilder.LapParts | feature_builder.py:87-88 | The parts of `m:w.f` with digit parts read as `m` minutes and the decimal `w.f` seconds. |
| FeatureBuilder.MinutesAndSeconds | feature_builder.py:87-88 | Parts that `int` and `float` accept, the seconds without a colon, give `int(m) * 60 + float(s)`. |
| FeatureBuilder.DigitsParse | feature_builder.py:88 | `int(m)` of a digit string is its value. |
| FeatureBuilder.DecimalNoColon | feature_builder.py:86 | Decimal text contains no colon. |
| FeatureBuilder.OneColon | feature_builder.py:85-91 | With exactly one colon, the text reads as minutes plus seconds, or as None when either part does not parse. |
| FeatureBuilder.ColonText | feature_builder.py:86-88 | Text with a colon is read from the parts before and after its first colon. |
| FeatureBuilder.ColonSplit | feature_builder.py:86-87 | Text with a colon splits at its first colon. |
| FeatureBuilder.TooManyColons | feature_builder.py:85-91 | Two colons do not unpack into two parts, so the result is None. |
| FeatureBuilder.BadMinutes | feature_builder.py:85-91 | A non-integer minutes part gives None. |
| FeatureBuilder.NoColon | feature_builder.py:89 | Text without a colon is read as `float(t)`. |
| FeatureBuilder.ApplyTime | feature_builder.py:96-97 | Converting a column keeps its length and leaves no text. A cell is missing exactly when `time_to_seconds` gives None, and otherwise holds its value. |
| FeatureBuilder.ObservedMembers | feature_builder.py:110 | The numbers the median sees are exactly the column's non-missing numbers. |
| FeatureBuilder.InsertSortedSpec | feature_builder.py:110 | Insertion keeps a sequence ascending and adds exactly one element. |
| FeatureBuilder.InsertSortedPerm | feature_builder.py:110 | Insertion adds exactly one element to the multiset. |
| FeatureBuilder.InsertSortedSorted | feature_builder.py:110 | Insertion into an ascending sequence keeps it ascending, and the head is the smaller of the new element and the old head. |
| FeatureBuilder.SortRealsSpec | feature_builder.py:110 | Sorting gives an ascending permutation of the observed numbers. |
| FeatureBuilder.MedianBetween | feature_builder.py:110 | A column has a median exactly when it has an observed number, and the median lies between two observed numbers. |
| FeatureBuilder.MedianDefined | feature_builder.py:110 | A column has a median exactly when it has an observed number. |
| FeatureBuilder.ObservedIndex | feature_builder.py:110 | Every value the sorted observations hold is some cell's number. |
| FeatureBuilder.FillMedianComplete | feature_builder.py:109-110 | After the median fill, no cell is missing exactly when the column is empty or has an observed number; observed numbers are kept. |
| FeatureBuilder.PracticeComplete | feature_builder.py:95-110 | After the time conversion and the fill cascade, each practice column has no missing cell exactly when the column its median is taken of is empty or holds a number. |
| FeatureBuilder.GridAndSprintFills | feature_builder.py:102-104 | A missing grid slot or sprint finish becomes 20. A missing sprint grid takes the already-filled grid slot, so it is 20 when both were missing. Observed values stay. |
| FeatureBuilder.PracticeCascade | feature_builder.py:106-107 | fp3 takes the ORIGINAL fp2, so a row missing both stays missing; fp2 then takes fp1. |
| FeatureBuilder.Frame.Load | feature_builder.py:76 | The frame holds the query's rows, every column as long as the row count. |
| FeatureBuilder.Frame.ConvertTimes | feature_builder.py:96-97 | Each of the six time columns becomes `ApplyTime` of itself; the other columns are unchanged. |
| FeatureBuilder.Frame.FillMissing | feature_builder.py:102-110 | Every filled column equals the cascade applied to the original columns, in the code's order; q1..q3 are unchanged. |
| FeatureBuilder.Frame.Clean | feature_builder.py:95-110 | The conversion followed by the missing-data block leaves each practice column as the median fill of its converted cascade; q1..q3 are converted only; grid and sprint finish are filled with 20, and sprint grid from the filled grid. |
| FeatureBuilder.Frame.FillFixed | feature_builder.py:102-107 | The five constant and cross-column fills, applied in order. |
| FeatureBuilder.Frame.FillMedians | feature_builder.py:109-110 | Each practice column gets its own median fill; the other columns are unchanged. |
| FeatureBuilder.Select | feature_builder.py:130-138 | A mask keeps exactly the rows satisfying its predicate, in row order. |
| FeatureBuilder.TrainPredictDisjoint | feature_builder.py:130-138 | No row is both a training row and a prediction row. |
| DnfBackfill.RoundsUpTo | backfill_dnf_to_csv.py:39 | `range(1, n + 1)`: `n` rounds, the i-th being i + 1. |
| DnfBackfill.AnyIn | backfill_dnf_to_csv.py:25 | `any(x in r for x in keywords)` holds exactly when some keyword is a substring. |
| DnfBackfill.IsMechanicalIff | backfill_dnf_to_csv.py:23-27 | A reason is mechanical exactly when no incident keyword and some mechanical keyword occur in its lower-cased text. |
| DnfBackfill.IsMechanicalIgnoresCase | backfill_dnf_to_csv.py:24 | The classification does not depend on case. |
| DnfBackfill.IncidentWins | backfill_dnf_to_csv.py:25-26 | "Suspension damage" names a mechanical part but is not mechanical. |
| DnfBackfill.MissingChar | backfill_dnf_to_csv.py:25 | A text lacking a character of a keyword does not contain the keyword. |
| DnfBackfill.EngineIsMechanical | backfill_dnf_to_csv.py:27 | "Engine" is mechanical. |
| DnfBackfill.DnfEntry | backfill_dnf_to_csv.py:55-69 | An empty, missing or non-mechanical reason gives no row, and only those do. A mechanical one gives one row with the original reason, the flag true, the round's season, round and race id, and the driver and team read with `r["driver"]["driverId"]` and `r["team"]["teamId"]`; it raises exactly when one of those cannot be read. |
| DnfBackfill.RoundCrashStops | backfill_dnf_to_csv.py:49-55 | A round that raises ends the export before the file is written. |
| DnfBackfill.AppendEntries | backfill_dnf_to_csv.py:55-69 | The results loop appends exactly the `FlatMap` of the round's entries, or raises exactly when it does. |
| DnfBackfill.AppendRound | backfill_dnf_to_csv.py:41-69 | A round with a failed fetch or without `races` adds nothing. A null `races` or `results` raises. Otherwise it appends the rows of its results. |
| DnfBackfill.AppendSeason | backfill_dnf_to_csv.py:39-69 | A season appends the rows of rounds 1..24 in order. |
| DnfBackfill.AppendRounds | backfill_dnf_to_csv.py:39-69 | The rounds loop appends exactly the `FlatMap` of its rounds, or raises exactly when it does. |
| DnfBackfill.CollectDnfRows | backfill_dnf_to_csv.py:38-69 | The export loop returns exactly `DnfRows`. |
| DnfBackfill.RoundRowsSound | backfill_dnf_to_csv.py:49-69 | Every row of a round belongs to that fetched round and has a non-empty mechanical reason and the flag set. |
| DnfBackfill.SeasonRowsSound | backfill_dnf_to_csv.py:39-69 | A season's rows lie in rounds 1..24 of that season, in round order. |
| DnfBackfill.DnfRowsSound | backfill_dnf_to_csv.py:38-69 | Every exported row is a mechanical retirement with a non-empty reason, from a listed season and a fetched round; rows are in season order, then round order. |
| DnfBackfill.DnfRowsComplete | backfill_dnf_to_csv.py:38-69 | Every mechanical retirement with a non-empty reason in a fetched round of a listed season is exported, with its round's race id, its reason, the flag set, and its own driver and team ids. |
| RaceSelection.Upcoming | app.py:24-47 | The upcoming race is a 2026 race without results, with a round no greater than any other such race. It is None exactly when every 2026 race has results. |
| RaceSelection.Latest | app.py:50-71 | The latest race is a 2026 race with results, with a round no smaller than any other such race. It is None exactly when no 2026 race has results. |
| RaceSelection.EarlierRacesCompleted | app.py:38-44 | Every 2026 race with a smaller round than the upcoming one has a result. |
| RaceSelection.UpcomingIsNotLatest | app.py:38-65 | The upcoming race and the latest completed race are never the same round. |

## Left out

- HTTP requests, status handling beyond what `fetch` does, timeouts, `time.sleep`, logging and `print` are not modelled. A fetch becomes a parameter: the parsed body, a `Response` value, or a missing entry of a map standing for a request that raised.
- The Postgres connection is not modelled beyond commit and rollback. SQL is modelled by its effect on maps keyed by the conflict key. The key columns are taken to be NOT NULL, so a row with a missing driver id is treated as an insert that raises.
- Paging in `execute_values` is not modelled; its rows are inserted one after another in list order.
- The scan order of `f1_races` is a parameter (`scan`) of the daily pipeline, and `CURRENT_DATE` is a day number `today`.
- The `GradientBoostingClassifier` fit is a boolean parameter: it returns, or it raises. The clock reading `NOW()` is a parameter. `train_model.py` and `predict_2026.py` are not part of this model.
- Floating point is not modelled: lap times, medians and fills are exact reals. `float()` is modelled only for an optional sign and decimal digits with an optional fraction. `inf`, `nan`, exponents, surrounding whitespace and underscores are read as invalid.
- `int()` on strings is modelled without surrounding whitespace or underscores. `isdigit` and `lower` are modelled for ASCII only.
- Positions are modelled as integers or strings; floats and booleans sent as positions are not modelled. A JSON body that is not an object (a list or `null`) is not modelled.
- The feature SQL join is not modelled: `Frame.Load` takes the joined rows as given. Category encoding (`feature_builder.py:115-116`), the feature list and the CSV exports are not modelled either.
- Writing the DNF CSV file is not modelled; `DnfRows` is the list of rows that would be written.
- RaceSelection.Upcoming: when two races share the smallest round, the model returns the first in scan order, where Postgres may return either. Its `races` argument stands for the rows of `f1_races` (the values of `Store.Db.races`) in the order Postgres scans them; the model does not tie that sequence to the map.
- RaceSelection.Latest: when two races share the greatest round, the model returns the first in scan order, where Postgres may return either. Its `races` argument is the same scan-order sequence of `f1_races` rows as for `Upcoming`.
- DnfBackfill.DnfRowsSound: states season-then-round order only. The order of rows within a round is the order of the results list by the definition of `FlatMap`, but it is not stated as a separate lemma.
- Flask routing, templates and the health endpoint of `app.py` are not modelled.
